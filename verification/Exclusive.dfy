/** Exclusive sections: start_exclusive, end_exclusive, cpu_exec_start and
    cpu_exec_end as one state machine, a step per shared access, over any number
    of CPU threads. Memory is sequentially consistent, which is what the full
    barriers between the accesses give. */
module Exclusive {
  type Cpu = nat

  /** Where a CPU's thread stands. A thread in a `...Relock` state was woken, by a
      signal or for no reason, and wants the lock back. */
  datatype PC =
    | Out                                            // in none of the four functions
    | EsRead | EsLock | EsCheck | EsIdle             // cpu_exec_start
    | EsSleep | EsRelock | EsUnlock
    | Exec                                           // between cpu_exec_start and cpu_exec_end
    | EeRead | EeLock | EeCheck | EeDec              // cpu_exec_end
    | EeSignal | EeUnlock
    | SeLock | SeIdle | SeSleep | SeRelock           // start_exclusive
    | SeScan(todo: set<Cpu>, n: nat)
    | SeMark(todo: set<Cpu>, n: nat, d: Cpu)
    | SeWait | SeWaitSleep | SeWaitRelock | SeUnlock | SeEnter
    | XLock | XClear | XBroadcast | XUnlock          // end_exclusive

  datatype Thread = Thread(pc: PC, running: bool, hasWaiter: bool, count: nat)

  /** pending_cpus, and whether qemu_cpu_list_lock is taken. */
  datatype Shared = Shared(pending: int, lock: bool)

  /** `thr` holds the CPUs on the list. */
  datatype State = State(thr: map<Cpu, Thread>, k: Shared)

  const NEWCPU := Thread(Out, false, false, 0)

  ghost predicate Init(s: State) {
    s.k == Shared(0, false) && forall c :: c in s.thr ==> s.thr[c] == NEWCPU
  }

  // ---------------------------------------------------------------------------
  // Steps that touch nothing of other CPUs.

  predicate Take(k: Shared, k2: Shared) {
    !k.lock && k2 == k.(lock := true)
  }

  function Free(k: Shared): Shared {
    k.(lock := false)
  }

  /** Entering one of the four functions. */
  predicate Call(th: Thread, th2: Thread) {
    || th2 == th.(running := true, pc := EsRead)
    || th2 == (if th.count > 0 then th.(count := th.count + 1) else th.(pc := SeLock))
    || (th.count > 1 && th2 == th.(count := th.count - 1))
    || (th.count == 1 && th2 == th.(count := 0, pc := XLock))
  }

  predicate ExecStart(th: Thread, k: Shared, th2: Thread, k2: Shared) {
    match th.pc
    case EsRead => k2 == k && th2 == th.(pc := if k.pending != 0 then EsLock else Exec)
    case EsLock => Take(k, k2) && th2 == th.(pc := EsCheck)
    case EsCheck => k2 == k && th2 == if th.hasWaiter then th.(pc := EsUnlock) else th.(running := false, pc := EsIdle)
    case EsIdle =>
      if k.pending != 0 then k2 == Free(k) && th2 == th.(pc := EsSleep)
      else k2 == k && th2 == th.(running := true, pc := EsUnlock)
    case EsSleep => k2 == k && th2 == th.(pc := EsRelock)
    case EsRelock => Take(k, k2) && th2 == th.(pc := EsIdle)
    case EsUnlock => k2 == Free(k) && th2 == th.(pc := Exec)
    case _ => false
  }

  predicate ExecEnd(th: Thread, k: Shared, th2: Thread, k2: Shared) {
    match th.pc
    case Exec => k2 == k && th2 == th.(running := false, pc := EeRead)
    case EeRead => k2 == k && th2 == th.(pc := if k.pending != 0 then EeLock else Out)
    case EeLock => Take(k, k2) && th2 == th.(pc := EeCheck)
    case EeCheck => k2 == k && th2 == if th.hasWaiter then th.(hasWaiter := false, pc := EeDec) else th.(pc := EeUnlock)
    case EeDec => k2 == k.(pending := k.pending - 1) && th2 == th.(pc := EeSignal)
    case EeUnlock => k2 == Free(k) && th2 == th.(pc := Out)
    case _ => false
  }

  predicate StartExclusive(th: Thread, k: Shared, th2: Thread, k2: Shared) {
    match th.pc
    case SeLock => Take(k, k2) && th2 == th.(pc := SeIdle)
    case SeIdle => k.pending != 0 && k2 == Free(k) && th2 == th.(pc := SeSleep)
    case SeSleep => k2 == k && th2 == th.(pc := SeRelock)
    case SeRelock => Take(k, k2) && th2 == th.(pc := SeIdle)
    case SeScan(todo, n) => todo == {} && k2 == k.(pending := n + 1) && th2 == th.(pc := SeWait)
    case SeWait =>
      if k.pending > 1 then k2 == Free(k) && th2 == th.(pc := SeWaitSleep)
      else k2 == k && th2 == th.(pc := SeUnlock)
    case SeWaitSleep => k2 == k && th2 == th.(pc := SeWaitRelock)
    case SeWaitRelock => Take(k, k2) && th2 == th.(pc := SeWait)
    case SeUnlock => k2 == Free(k) && th2 == th.(pc := SeEnter)
    case SeEnter => k2 == k && th2 == th.(count := 1, pc := Out)
    case _ => false
  }

  predicate EndExclusive(th: Thread, k: Shared, th2: Thread, k2: Shared) {
    match th.pc
    case XLock => Take(k, k2) && th2 == th.(pc := XClear)
    case XClear => k2 == k.(pending := 0) && th2 == th.(pc := XBroadcast)
    case XUnlock => k2 == Free(k) && th2 == th.(pc := Out)
    case _ => false
  }

  predicate Own(th: Thread, k: Shared, th2: Thread, k2: Shared) {
    || (th.pc == Out && k2 == k && Call(th, th2))
    || ExecStart(th, k, th2, k2) || ExecEnd(th, k, th2, k2)
    || StartExclusive(th, k, th2, k2) || EndExclusive(th, k, th2, k2)
  }

  // ---------------------------------------------------------------------------
  // Steps that do.

  /** Signal on exclusive_cond. */
  function WakeStarter(th: Thread): Thread {
    if th.pc == SeWaitSleep then th.(pc := SeWaitRelock) else th
  }

  /** Broadcast on exclusive_resume. */
  function WakeIdle(th: Thread): Thread {
    if th.pc == EsSleep then th.(pc := EsRelock) else if th.pc == SeSleep then th.(pc := SeRelock) else th
  }

  function WakeAll(thr: map<Cpu, Thread>, wake: Thread -> Thread): map<Cpu, Thread> {
    map c | c in thr :: wake(thr[c])
  }

  /** The scan looks at the remaining CPUs in any order: one that runs is marked. */
  predicate ScanOne(s: State, t: State, c: Cpu, d: Cpu)
    requires c in s.thr && s.thr[c].pc.SeScan?
  {
    var pc := s.thr[c].pc;
    && d in pc.todo && d in s.thr
    && t == s.(thr := s.thr[c := s.thr[c].(pc :=
          if s.thr[d].running then SeMark(pc.todo - {d}, pc.n, d) else SeScan(pc.todo - {d}, pc.n))])
  }

  function Mark(thr: map<Cpu, Thread>, d: Cpu): map<Cpu, Thread>
    requires d in thr
  {
    thr[d := thr[d].(hasWaiter := true)]
  }

  ghost predicate Cross(s: State, t: State, c: Cpu)
    requires c in s.thr
  {
    var th := s.thr[c];
    match th.pc
    case EeSignal =>
      var thr := if s.k.pending == 1 then WakeAll(s.thr, WakeStarter) else s.thr;
      t == s.(thr := thr[c := th.(pc := EeUnlock)])
    case XBroadcast => t == s.(thr := WakeAll(s.thr, WakeIdle)[c := th.(pc := XUnlock)])
    case SeIdle => s.k.pending == 0 && t == State(s.thr[c := th.(pc := SeScan(s.thr.Keys, 0))], s.k.(pending := 1))
    case SeScan(_, _) => exists d :: ScanOne(s, t, c, d)
    case SeMark(todo, n, d) => d in s.thr && t == s.(thr := Mark(s.thr, d)[c := th.(pc := SeScan(todo, n + 1))])
    case _ => false
  }

  ghost predicate OwnStep(s: State, t: State, c: Cpu) {
    && c in s.thr && c in t.thr && t.thr == s.thr[c := t.thr[c]]
    && Own(s.thr[c], s.k, t.thr[c], t.k)
  }

  ghost predicate ThreadStep(s: State, t: State, c: Cpu) {
    OwnStep(s, t, c) || (c in s.thr && Cross(s, t, c))
  }

  /** cpu_list_add and cpu_list_remove; a CPU that leaves is not in use. */
  ghost predicate ListStep(s: State, t: State, c: Cpu) {
    && !s.k.lock && t.k == s.k
    && (|| (c !in s.thr && t.thr == s.thr[c := NEWCPU])
        || (c in s.thr && s.thr[c].pc == Out && s.thr[c].count == 0 && t.thr == s.thr - {c}))
  }

  ghost predicate Next(s: State, t: State) {
    exists c :: ThreadStep(s, t, c) || ListStep(s, t, c)
  }

  /** A run, from any set of idle CPUs. */
  ghost predicate Run(r: seq<State>) {
    r != [] && Init(r[0]) && forall i :: 0 <= i < |r| - 1 ==> Next(r[i], r[i + 1])
  }

  // ---------------------------------------------------------------------------
  // The invariant.

  predicate Runs(pc: PC) {
    pc in {EsRead, EsLock, EsCheck, EsUnlock, Exec}
  }

  predicate MayBeCounted(pc: PC) {
    Runs(pc) || pc in {EeRead, EeLock, EeCheck}
  }

  predicate Holds(pc: PC) {
    || pc in {EsCheck, EsIdle, EsUnlock, EeCheck, EeDec, EeSignal, EeUnlock, SeIdle, SeWait, SeUnlock, XClear,
        XBroadcast, XUnlock}
    || Scanning(pc)
  }

  predicate Scanning(pc: PC) {
    pc.SeScan? || pc.SeMark?
  }

  /** The thread has announced a section that has not been ended. */
  predicate Owns(th: Thread) {
    th.count > 0 || Scanning(th.pc) || th.pc in {SeWait, SeWaitSleep, SeWaitRelock, SeUnlock, SeEnter, XLock, XClear}
  }

  /** The thread may do what needs all others stopped. */
  predicate Inside(th: Thread) {
    th.count > 0 || th.pc in {SeUnlock, SeEnter, XLock, XClear}
  }

  /** The scan has yet to mark `c`. */
  predicate Unseen(pc: PC, c: Cpu) {
    (pc.SeScan? && c in pc.todo) || (pc.SeMark? && (c in pc.todo || c == pc.d))
  }

  /** What a CPU's fields say about where its thread stands. */
  predicate LocalOk(th: Thread) {
    && (th.running <==> Runs(th.pc))
    && (th.hasWaiter ==> MayBeCounted(th.pc))
    && (th.count > 0 ==> th.pc in {Out, EsRead, EsLock, EsCheck, EsIdle, EsSleep, EsRelock})
  }

  ghost predicate AllLocal(s: State) {
    forall c :: c in s.thr ==> LocalOk(s.thr[c])
  }

  ghost predicate HasLock(s: State, c: Cpu) {
    c in s.thr && Holds(s.thr[c].pc)
  }

  /** The lock is held by one thread or free. */
  ghost predicate LockOk(s: State) {
    && (forall c, d :: HasLock(s, c) && HasLock(s, d) ==> c == d)
    && (s.k.lock <==> exists c :: HasLock(s, c))
  }

  ghost predicate OwnedBy(s: State, c: Cpu) {
    c in s.thr && Owns(s.thr[c])
  }

  /** At most one section is announced, exactly when `pending` is not zero. */
  ghost predicate OwnerOk(s: State) {
    && s.k.pending >= 0
    && (forall c, d :: OwnedBy(s, c) && OwnedBy(s, d) ==> c == d)
    && (s.k.pending != 0 <==> exists c :: OwnedBy(s, c))
  }

  predicate CountedAs(th: Thread) {
    th.hasWaiter || th.pc == EeDec
  }

  /** CPUs the owner waits for: counted, and not yet subtracted. */
  ghost function Counted(s: State): set<Cpu> {
    set c | c in s.thr && CountedAs(s.thr[c])
  }

  ghost predicate CountOkFor(s: State, o: Cpu) {
    OwnedBy(s, o) ==>
      && (!Scanning(s.thr[o].pc) ==> s.k.pending == 1 + |Counted(s)|)
      && (Scanning(s.thr[o].pc) ==> s.k.pending == 1 && s.thr[o].pc.n == |Counted(s)|)
      && (Inside(s.thr[o]) ==> s.k.pending == 1)
  }

  ghost predicate CountOk(s: State) {
    (forall o :: CountOkFor(s, o)) && (s.k.pending == 0 ==> Counted(s) == {})
  }

  /** A CPU the scan has passed runs on only if it was counted. */
  ghost predicate SeenOkFor(s: State, o: Cpu, c: Cpu) {
    OwnedBy(s, o) && c in s.thr ==>
      && (s.thr[c].pc in {Exec, EsUnlock} && !Unseen(s.thr[o].pc, c) ==> s.thr[c].hasWaiter)
      && (Unseen(s.thr[o].pc, c) ==> !s.thr[c].hasWaiter)
  }

  /** The scan's own bookkeeping. */
  ghost predicate ScanOkFor(s: State, o: Cpu) {
    o in s.thr ==>
      && (Scanning(s.thr[o].pc) ==> s.thr[o].pc.todo <= s.thr.Keys)
      && (s.thr[o].pc.SeMark? ==>
            && s.thr[o].pc.d in s.thr && s.thr[o].pc.d !in s.thr[o].pc.todo
            && s.thr[s.thr[o].pc.d].pc in {EsRead, EsLock, Exec, EeRead, EeLock})
  }

  ghost predicate ScanOk(s: State) {
    && (forall o, c :: SeenOkFor(s, o, c))
    && (forall o :: ScanOkFor(s, o))
  }

  ghost predicate Inv(s: State) {
    AllLocal(s) && LockOk(s) && OwnerOk(s) && CountOk(s) && ScanOk(s)
  }

  lemma InitInv(s: State)
    requires Init(s)
    ensures Inv(s)
  {
    assert Counted(s) == {};
  }

  // ---------------------------------------------------------------------------
  // What a thread's own step does, with no other thread in sight.

  /** What the counts say about the thread that steps. */
  predicate Sane(th: Thread, k: Shared) {
    && LocalOk(th) && k.pending >= 0
    && (Holds(th.pc) ==> k.lock)
    && (Owns(th) ==> k.pending >= 1)
    && (Inside(th) || k.pending == 0 ==> !CountedAs(th))
    && (Inside(th) ==> k.pending == 1)
    && (Scanning(th.pc) ==> k.pending == 1)
  }

  lemma OwnLocal(th: Thread, k: Shared, th2: Thread, k2: Shared)
    requires Sane(th, k) && Own(th, k, th2, k2)
    ensures LocalOk(th2)
  {
  }

  lemma OwnLock(th: Thread, k: Shared, th2: Thread, k2: Shared)
    requires Sane(th, k) && Own(th, k, th2, k2)
    ensures Holds(th2.pc) ==> k2.lock && (Holds(th.pc) || !k.lock)
    ensures !Holds(th2.pc) ==> (if Holds(th.pc) then !k2.lock else k2.lock == k.lock)
  {
  }

  /** Only the end of a section changes who owns one. */
  lemma OwnOwner(th: Thread, k: Shared, th2: Thread, k2: Shared)
    requires Sane(th, k) && Own(th, k, th2, k2)
    ensures Owns(th2) ==> Owns(th)
    ensures Owns(th) && !Owns(th2) ==> k2.pending == 0
    ensures !Owns(th) ==> k2.pending == if th.pc == EeDec then k.pending - 1 else k.pending
  {
  }

  /** A CPU stops being counted by its decrement, and only the scan counts one. */
  lemma OwnCounted(th: Thread, k: Shared, th2: Thread, k2: Shared)
    requires Sane(th, k) && Own(th, k, th2, k2)
    ensures CountedAs(th2) <==> CountedAs(th) && th.pc != EeDec
    ensures th2.hasWaiter ==> th.hasWaiter
  {
  }

  /** An owner publishes its scan, and gets in when nobody is left to wait for. */
  lemma OwnPublish(th: Thread, k: Shared, th2: Thread, k2: Shared)
    requires Sane(th, k) && Own(th, k, th2, k2) && Owns(th) && Owns(th2)
    ensures !Scanning(th2.pc)
    ensures k2.pending == if Scanning(th.pc) then th.pc.n + 1 else k.pending
    ensures Scanning(th.pc) ==> th.pc.SeScan? && th.pc.todo == {} && !Inside(th2)
    ensures Inside(th2) ==> k2.pending <= 1
  {
  }

  /** Nobody starts executing against an announced section unless counted. */
  lemma OwnSeen(th: Thread, k: Shared, th2: Thread, k2: Shared)
    requires Sane(th, k) && Own(th, k, th2, k2)
    ensures th2.pc in {Exec, EsUnlock} ==> th2.hasWaiter == th.hasWaiter
    ensures th2.pc in {Exec, EsUnlock} ==> th.hasWaiter || k.pending == 0 || th.pc in {Exec, EsUnlock}
    ensures k.lock && !Holds(th.pc) && k.pending != 0 && th.pc in {EsRead, EsLock, Exec, EeRead, EeLock} ==>
              th2.pc in {EsRead, EsLock, Exec, EeRead, EeLock}
  {
  }

  // ---------------------------------------------------------------------------
  // Own steps keep the invariant.

  lemma Fits(s: State, c: Cpu)
    requires Inv(s) && c in s.thr
    ensures Sane(s.thr[c], s.k)
  {
    var th := s.thr[c];
    assert LocalOk(th) && CountOkFor(s, c);
    assert HasLock(s, c) ==> s.k.lock;
    assert OwnedBy(s, c) ==> s.k.pending != 0;
    assert CountedAs(th) ==> c in Counted(s);
    assert Inside(th) ==> Counted(s) == {};
  }

  lemma OwnKeepsLock(s: State, t: State, c: Cpu)
    requires Inv(s) && OwnStep(s, t, c)
    ensures LockOk(t) && AllLocal(t)
  {
    Fits(s, c);
    OwnLocal(s.thr[c], s.k, t.thr[c], t.k);
    OwnLock(s.thr[c], s.k, t.thr[c], t.k);
    hide CountOk, OwnerOk, ScanOk, Own, Holds;
    forall d | d != c ensures HasLock(t, d) <==> HasLock(s, d) {
    }
    forall d | HasLock(t, d) && d != c ensures t.k.lock && !HasLock(t, c) {
      assert HasLock(s, d) && (HasLock(s, c) ==> c == d);
    }
    if t.k.lock && !HasLock(t, c) {
      var d :| HasLock(s, d);
      assert d != c && HasLock(t, d);
    }
  }

  lemma OwnKeepsOwner(s: State, t: State, c: Cpu)
    requires Inv(s) && OwnStep(s, t, c)
    ensures OwnerOk(t)
  {
    Fits(s, c);
    OwnOwner(s.thr[c], s.k, t.thr[c], t.k);
    forall d | d != c ensures OwnedBy(t, d) <==> OwnedBy(s, d) {
    }
    if OwnedBy(s, c) && OwnedBy(t, c) {
      OwnPublish(s.thr[c], s.k, t.thr[c], t.k);
    } else if !OwnedBy(s, c) && s.thr[c].pc == EeDec {
      assert c in Counted(s);
      var o :| OwnedBy(s, o);
      assert CountOkFor(s, o);
      OwnerNotScanning(s, o, c);
      assert |Counted(s)| >= 1;
    }
    hide CountOk, LockOk, ScanOk, Own, Owns;
  }

  /** While somebody else holds the lock no scan is under way. */
  lemma OwnerNotScanning(s: State, o: Cpu, c: Cpu)
    requires Inv(s) && OwnedBy(s, o) && HasLock(s, c) && o != c
    ensures !Scanning(s.thr[o].pc)
  {
    assert HasLock(s, o) ==> o == c;
  }

  lemma OwnKeepsCount(s: State, t: State, c: Cpu)
    requires Inv(s) && OwnStep(s, t, c)
    ensures CountOk(t)
  {
    Fits(s, c);
    OwnCounted(s.thr[c], s.k, t.thr[c], t.k);
    OwnOwner(s.thr[c], s.k, t.thr[c], t.k);
    assert Counted(t) == if s.thr[c].pc == EeDec then Counted(s) - {c} else Counted(s);
    assert s.thr[c].pc == EeDec ==> c in Counted(s);
    if t.k.pending == 0 {
      OwnZero(s, t, c);
    }
    if OwnedBy(t, c) {
      OwnPublish(s.thr[c], s.k, t.thr[c], t.k);
      assert CountOkFor(s, c) && s.thr[c].pc != EeDec;
    }
    assert CountOkFor(t, c);
    hide CountOk, LockOk, AllLocal, ScanOk, Own, Sane, Owns, CountedAs, Inside;
    forall o | o != c ensures CountOkFor(t, o) {
      assert CountOkFor(s, o);
      if OwnedBy(t, o) && s.thr[c].pc == EeDec {
        OwnerNotScanning(s, o, c);
      }
      assert OwnedBy(t, o) ==> OwnedBy(s, o) && !OwnedBy(s, c);
      assert OwnedBy(s, c) <==> Owns(s.thr[c]);
    }
  }

  lemma OwnZero(s: State, t: State, c: Cpu)
    requires Inv(s) && OwnStep(s, t, c) && t.k.pending == 0
    requires Counted(t) == if s.thr[c].pc == EeDec then Counted(s) - {c} else Counted(s)
    ensures Counted(t) == {}
  {
    Fits(s, c);
    OwnOwner(s.thr[c], s.k, t.thr[c], t.k);
    OwnKeepsOwner(s, t, c);
    if s.k.pending != 0 {
      var o :| OwnedBy(s, o);
      assert CountOkFor(s, o);
      assert o != c ==> OwnedBy(t, o);
      assert o == c && !OwnedBy(t, c);
      assert Inside(s.thr[c]) by {
        OwnEnds(s.thr[c], s.k, t.thr[c], t.k);
      }
    }
  }

  lemma OwnEnds(th: Thread, k: Shared, th2: Thread, k2: Shared)
    requires Sane(th, k) && Own(th, k, th2, k2) && Owns(th) && !Owns(th2)
    ensures Inside(th)
  {
  }

  lemma OwnKeepsScan(s: State, t: State, c: Cpu)
    requires Inv(s) && OwnStep(s, t, c)
    ensures ScanOk(t)
  {
    Fits(s, c);
    OwnSeen(s.thr[c], s.k, t.thr[c], t.k);
    OwnCounted(s.thr[c], s.k, t.thr[c], t.k);
    OwnOwner(s.thr[c], s.k, t.thr[c], t.k);
    if OwnedBy(s, c) && OwnedBy(t, c) {
      OwnPublish(s.thr[c], s.k, t.thr[c], t.k);
    }
    OwnNotScanning(s.thr[c], s.k, t.thr[c], t.k);
    forall o ensures ScanOkFor(t, o) {
      assert ScanOkFor(s, o);
      if o != c && o in s.thr && s.thr[o].pc.SeMark? && s.thr[o].pc.d == c {
        assert HasLock(s, o) && OwnedBy(s, o);
        assert !HasLock(s, c);
      }
    }
    hide LockOk, CountOk, AllLocal, Own, Sane;
    forall o, d ensures SeenOkFor(t, o, d) {
      assert SeenOkFor(s, o, d);
      assert OwnedBy(t, o) ==> OwnedBy(s, o);
    }
  }

  lemma OwnNotScanning(th: Thread, k: Shared, th2: Thread, k2: Shared)
    requires Own(th, k, th2, k2)
    ensures !Scanning(th2.pc)
  {
  }

  // ---------------------------------------------------------------------------
  // So do the others.

  /** Woken, or done with waking. */
  predicate Alike(a: Thread, b: Thread) {
    || b == a
    || (b == a.(pc := b.pc)
        && (a.pc, b.pc) in {(EsSleep, EsRelock), (SeSleep, SeRelock), (SeWaitSleep, SeWaitRelock),
                            (EeSignal, EeUnlock), (XBroadcast, XUnlock)})
  }

  ghost predicate AllAlike(s: State, t: State) {
    t.k == s.k && t.thr.Keys == s.thr.Keys && forall c :: c in s.thr ==> Alike(s.thr[c], t.thr[c])
  }

  lemma AlikeSame(a: Thread, b: Thread)
    requires Alike(a, b)
    ensures LocalOk(a) ==> LocalOk(b)
    ensures Holds(a.pc) == Holds(b.pc) && Owns(a) == Owns(b) && Inside(a) == Inside(b)
    ensures CountedAs(a) == CountedAs(b) && a.hasWaiter == b.hasWaiter
    ensures a.pc == b.pc || (!Scanning(a.pc) && !Scanning(b.pc))
    ensures a.pc != b.pc ==> a.pc !in {Exec, EsUnlock, EsRead, EsLock, EeRead, EeLock} && b.pc !in {Exec, EsUnlock}
  {
  }

  lemma AlikeKeeps(s: State, t: State)
    requires Inv(s) && AllAlike(s, t)
    ensures Inv(t)
  {
    forall c | c in s.thr
      ensures LocalOk(t.thr[c]) && (HasLock(t, c) <==> HasLock(s, c)) && (OwnedBy(t, c) <==> OwnedBy(s, c))
      ensures CountedAs(t.thr[c]) == CountedAs(s.thr[c])
    {
      AlikeSame(s.thr[c], t.thr[c]);
      assert LocalOk(s.thr[c]);
    }
    assert LockOk(t) by {
      assert forall c :: HasLock(t, c) <==> HasLock(s, c);
    }
    assert OwnerOk(t) by {
      assert forall c :: OwnedBy(t, c) <==> OwnedBy(s, c);
    }
    assert Counted(t) == Counted(s);
    forall o ensures CountOkFor(t, o) {
      assert CountOkFor(s, o);
      if o in s.thr {
        AlikeSame(s.thr[o], t.thr[o]);
      }
    }
    AlikeScan(s, t);
  }

  lemma AlikeScan(s: State, t: State)
    requires Inv(s) && AllAlike(s, t)
    ensures ScanOk(t)
  {
    hide LockOk, CountOk, OwnerOk, AllLocal;
    forall c | c in s.thr ensures Alike(s.thr[c], t.thr[c]) {
    }
    forall o ensures ScanOkFor(t, o) {
      assert ScanOkFor(s, o);
      if o in s.thr {
        AlikeSame(s.thr[o], t.thr[o]);
        if s.thr[o].pc.SeMark? {
          AlikeSame(s.thr[s.thr[o].pc.d], t.thr[s.thr[o].pc.d]);
        }
      }
    }
    hide Alike, Owns;
    forall o, c ensures SeenOkFor(t, o, c) {
      assert SeenOkFor(s, o, c);
      if o in s.thr && c in s.thr {
        AlikeSame(s.thr[o], t.thr[o]);
        AlikeSame(s.thr[c], t.thr[c]);
      }
    }
  }

  /** A section is announced. */
  lemma AnnounceKeeps(s: State, t: State, c: Cpu)
    requires Inv(s) && c in s.thr && s.thr[c].pc == SeIdle && Cross(s, t, c)
    ensures Inv(t)
  {
    forall d ensures d in s.thr ==> !CountedAs(s.thr[d]) && !OwnedBy(s, d) {
      assert d in s.thr && CountedAs(s.thr[d]) ==> d in Counted(s);
    }
    assert LocalOk(s.thr[c]);
    forall d | d != c ensures HasLock(t, d) <==> HasLock(s, d) {
    }
    assert HasLock(s, c) && HasLock(t, c);
    assert Counted(t) == {};
    assert OwnedBy(t, c) && OwnerOk(t);
    assert CountOk(t) by {
      forall o ensures CountOkFor(t, o) {
      }
    }
    forall o, d ensures SeenOkFor(t, o, d) {
    }
    forall o ensures ScanOkFor(t, o) {
      assert ScanOkFor(s, o);
      assert o in s.thr && o != c ==> (HasLock(s, o) ==> o == c);
    }
  }

  /** The scan passes a CPU. */
  lemma ScanKeeps(s: State, t: State, c: Cpu, d: Cpu)
    requires Inv(s) && c in s.thr && s.thr[c].pc.SeScan? && ScanOne(s, t, c, d)
    ensures Inv(t)
  {
    assert LocalOk(s.thr[c]) && LocalOk(s.thr[d]) && HasLock(s, c) && HasLock(t, c) && OwnedBy(s, c) && OwnedBy(t, c);
    assert HasLock(s, d) ==> c == d;
    forall e | e != c ensures (HasLock(t, e) <==> HasLock(s, e)) && (OwnedBy(t, e) <==> OwnedBy(s, e)) {
    }
    assert Counted(t) == Counted(s);
    assert CountOk(t) by {
      forall o ensures CountOkFor(t, o) {
        assert CountOkFor(s, o);
      }
    }
    forall o ensures ScanOkFor(t, o) {
      assert ScanOkFor(s, o);
      assert o in s.thr && o != c ==> (HasLock(s, o) ==> o == c);
    }
    hide CountOk, LockOk;
    forall o, e ensures SeenOkFor(t, o, e) {
      assert SeenOkFor(s, o, e);
      assert OwnedBy(t, o) ==> o == c;
    }
  }

  /** The CPU found running is marked and counted. */
  lemma MarkKeeps(s: State, t: State, c: Cpu)
    requires Inv(s) && c in s.thr && s.thr[c].pc.SeMark? && Cross(s, t, c)
    ensures Inv(t)
  {
    var d := s.thr[c].pc.d;
    assert ScanOkFor(s, c) && SeenOkFor(s, c, d) && HasLock(s, c) && OwnedBy(s, c) && CountOkFor(s, c);
    assert d != c && d in s.thr && !s.thr[d].hasWaiter;
    assert LocalOk(s.thr[c]) && LocalOk(s.thr[d]);
    assert HasLock(t, c) && OwnedBy(t, c);
    forall e | e != c ensures (HasLock(t, e) <==> HasLock(s, e)) && (OwnedBy(t, e) <==> OwnedBy(s, e)) {
    }
    assert Counted(t) == Counted(s) + {d} && d !in Counted(s);
    assert AllLocal(t) by {
      forall e | e in t.thr ensures LocalOk(t.thr[e]) {
        assert LocalOk(s.thr[e]);
      }
    }
    assert CountOk(t) by {
      forall o ensures CountOkFor(t, o) {
        assert OwnedBy(t, o) ==> o == c;
      }
    }
    hide CountOk, LocalOk, AllLocal;
    MarkScan(s, t, c);
  }

  lemma MarkScan(s: State, t: State, c: Cpu)
    requires Inv(s) && c in s.thr && s.thr[c].pc.SeMark? && Cross(s, t, c)
    requires forall e :: e != c ==> (OwnedBy(t, e) <==> OwnedBy(s, e))
    ensures ScanOk(t)
  {
    assert HasLock(s, c) && OwnedBy(s, c) && ScanOkFor(s, c);
    forall o ensures ScanOkFor(t, o) {
      assert ScanOkFor(s, o);
      assert o in s.thr && o != c ==> (HasLock(s, o) ==> o == c);
    }
    hide CountOk, LockOk, AllLocal;
    forall o, e ensures SeenOkFor(t, o, e) {
      assert SeenOkFor(s, o, e) && SeenOkFor(s, c, e);
      assert OwnedBy(t, o) ==> o == c;
    }
  }

  /** CPUs come and go. */
  lemma ListKeeps(s: State, t: State, c: Cpu)
    requires Inv(s) && ListStep(s, t, c)
    ensures Inv(t)
  {
    assert c in s.thr ==> LocalOk(s.thr[c]);
    forall d ensures (HasLock(t, d) <==> HasLock(s, d)) && (OwnedBy(t, d) <==> OwnedBy(s, d)) {
    }
    assert Counted(t) == Counted(s);
    assert CountOk(t) by {
      forall o ensures CountOkFor(t, o) {
        assert CountOkFor(s, o);
      }
    }
    hide CountOk, OwnerOk;
    forall o ensures ScanOkFor(t, o) && !HasLock(s, o) {
      assert HasLock(s, o) ==> s.k.lock;
    }
    forall o, e ensures SeenOkFor(t, o, e) {
      assert SeenOkFor(s, o, e);
      assert OwnedBy(t, o) ==> OwnedBy(s, o) && !HasLock(s, o);
    }
  }

  lemma CrossKeeps(s: State, t: State, c: Cpu)
    requires Inv(s) && c in s.thr && Cross(s, t, c)
    ensures Inv(t)
  {
    match s.thr[c].pc
    case EeSignal =>
      assert AllAlike(s, t);
      AlikeKeeps(s, t);
    case XBroadcast =>
      assert AllAlike(s, t);
      AlikeKeeps(s, t);
    case SeIdle =>
      AnnounceKeeps(s, t, c);
    case SeScan(_, _) =>
      var d :| ScanOne(s, t, c, d);
      ScanKeeps(s, t, c, d);
    case SeMark(_, _, _) =>
      MarkKeeps(s, t, c);
  }

  lemma NextKeeps(s: State, t: State)
    requires Inv(s) && Next(s, t)
    ensures Inv(t)
  {
    hide Inv, Cross, OwnStep, ListStep;
    var c :| ThreadStep(s, t, c) || ListStep(s, t, c);
    if OwnStep(s, t, c) {
      OwnKeeps(s, t, c);
    } else if ListStep(s, t, c) {
      ListKeeps(s, t, c);
    } else {
      CrossKeeps(s, t, c);
    }
  }

  lemma OwnKeeps(s: State, t: State, c: Cpu)
    requires Inv(s) && OwnStep(s, t, c)
    ensures Inv(t)
  {
    OwnKeepsLock(s, t, c);
    OwnKeepsOwner(s, t, c);
    OwnKeepsCount(s, t, c);
    OwnKeepsScan(s, t, c);
  }

  // ---------------------------------------------------------------------------
  // What every run keeps.

  lemma {:induction false} RunKeeps(r: seq<State>, i: nat)
    requires Run(r) && i < |r|
    ensures Inv(r[i]) && WakeOk(r[i])
  {
    if i == 0 {
      InitInv(r[0]);
    } else {
      RunKeeps(r, i - 1);
      assert Next(r[i - 1], r[i - 1 + 1]);
      NextKeeps(r[i - 1], r[i]);
      NextWakes(r[i - 1], r[i]);
    }
  }

  /** While one thread is inside an exclusive section, nobody has returned from
      cpu_exec_start without starting cpu_exec_end, and nobody else is inside one. */
  lemma ExclusiveIsAlone(r: seq<State>, i: nat, o: Cpu, c: Cpu)
    requires Run(r) && i < |r| && o in r[i].thr && c in r[i].thr && Inside(r[i].thr[o])
    ensures r[i].thr[c].pc != Exec
    ensures c != o ==> !Inside(r[i].thr[c])
  {
    RunKeeps(r, i);
    InsideIsAlone(r[i], o, c);
  }

  lemma InsideIsAlone(s: State, o: Cpu, c: Cpu)
    requires Inv(s) && o in s.thr && c in s.thr && Inside(s.thr[o])
    ensures s.thr[c].pc != Exec
    ensures c != o ==> !Inside(s.thr[c])
  {
    assert CountOkFor(s, o) && OwnedBy(s, o) && SeenOkFor(s, o, c);
    assert Counted(s) == {};
    assert c !in Counted(s);
    assert Inside(s.thr[c]) ==> OwnedBy(s, c);
    InsideNotScanning(s.thr[o]);
  }

  lemma InsideNotScanning(th: Thread)
    requires Inside(th) && LocalOk(th)
    ensures !Scanning(th.pc)
  {
  }

  ghost function Waiters(s: State): set<Cpu> {
    set c | c in s.thr && s.thr[c].hasWaiter
  }

  /** Once the scan is published, pending_cpus is 1 plus the CPUs marked, up to a
      decrement in progress; outside exclusive operations it is 0 and none is marked. */
  lemma PendingCounts(r: seq<State>, i: nat, o: Cpu)
    requires Run(r) && i < |r|
    ensures OwnedBy(r[i], o) && !Scanning(r[i].thr[o].pc) && (forall c :: c in r[i].thr ==> r[i].thr[c].pc != EeDec) ==>
              r[i].k.pending == 1 + |Waiters(r[i])|
    ensures (forall c :: !OwnedBy(r[i], c)) ==> r[i].k.pending == 0 && Waiters(r[i]) == {}
  {
    var s := r[i];
    RunKeeps(r, i);
    assert CountOkFor(s, o);
    if forall c :: c in s.thr ==> s.thr[c].pc != EeDec {
      assert Counted(s) == Waiters(s);
    }
    if forall c :: !OwnedBy(s, c) {
      assert Waiters(s) <= Counted(s);
    }
  }

  predicate Waits(th: Thread) {
    th.pc in {SeWait, SeWaitSleep, SeWaitRelock}
  }

  /** While a starter waits, the count never rises, no CPU is marked anew, and the
      count falls by one with each counted cpu_exec_end and with nothing else. */
  lemma WaitingFalls(r: seq<State>, i: nat, o: Cpu, t: State, c: Cpu)
    requires Run(r) && i < |r| && o in r[i].thr && Waits(r[i].thr[o])
    requires ThreadStep(r[i], t, c) || ListStep(r[i], t, c)
    ensures Waiters(t) <= Waiters(r[i])
    ensures t.k.pending == r[i].k.pending - (if c in r[i].thr && r[i].thr[c].pc == EeDec then 1 else 0)
  {
    var s := r[i];
    RunKeeps(r, i);
    assert OwnedBy(s, o);
    if OwnStep(s, t, c) {
      Fits(s, c);
      OwnCounted(s.thr[c], s.k, t.thr[c], t.k);
      OwnOwner(s.thr[c], s.k, t.thr[c], t.k);
      if c == o {
        WaiterStays(s.thr[o], s.k, t.thr[o], t.k);
      } else {
        assert !OwnedBy(s, c);
      }
    } else if c in s.thr && Cross(s, t, c) {
      assert OwnedBy(s, c) ==> c == o;
      assert s.k.pending != 0;
    }
  }

  lemma WaiterStays(th: Thread, k: Shared, th2: Thread, k2: Shared)
    requires Own(th, k, th2, k2) && Waits(th)
    ensures k2.pending == k.pending && !CountedAs(th2) == !th2.hasWaiter
  {
  }

  // ---------------------------------------------------------------------------
  // No wake-up is lost, and nobody waits for ever.

  ghost predicate Somebody(s: State, pc: PC) {
    exists c :: c in s.thr && s.thr[c].pc == pc
  }

  predicate SleepsIdle(th: Thread) {
    th.pc in {EsSleep, SeSleep}
  }

  /** Whoever sleeps has a reason to, or its wake-up is on the way. */
  ghost predicate WakeOk(s: State) {
    StarterWakes(s) && IdleWakes(s)
  }

  lemma OwnSleeps(th: Thread, k: Shared, th2: Thread, k2: Shared)
    requires Sane(th, k) && Own(th, k, th2, k2)
    ensures th2.pc == SeWaitSleep ==> k2.pending > 1
    ensures SleepsIdle(th2) ==> k2.pending != 0
    ensures th.pc !in {EeSignal, XBroadcast}
    ensures k2.pending < k.pending ==> th2.pc == if Owns(th) then XBroadcast else EeSignal
  {
  }

  ghost predicate StarterWakes(s: State) {
    s.k.pending <= 1 && Somebody(s, SeWaitSleep) ==> Somebody(s, EeSignal)
  }

  ghost predicate IdleWakes(s: State) {
    s.k.pending == 0 && (exists c :: c in s.thr && SleepsIdle(s.thr[c])) ==> Somebody(s, XBroadcast)
  }

  lemma OwnWakesStarter(s: State, t: State, c: Cpu)
    requires Inv(s) && StarterWakes(s) && OwnStep(s, t, c)
    ensures StarterWakes(t)
  {
    Fits(s, c);
    OwnSleeps(s.thr[c], s.k, t.thr[c], t.k);
    hide LockOk, CountOk, ScanOk, AllLocal, Own, Sane;
    if t.k.pending <= 1 && Somebody(t, SeWaitSleep) {
      var o :| o in t.thr && t.thr[o].pc == SeWaitSleep;
      assert s.thr[o].pc == SeWaitSleep;
      assert OwnedBy(s, o) && !OwnedBy(s, c);
      if t.k.pending < s.k.pending {
        assert t.thr[c].pc == EeSignal;
      } else {
        assert Somebody(s, SeWaitSleep) && SamePcs(s, t, c);
        SomebodyStays(s, t, c, EeSignal);
      }
    }
  }

  lemma OwnWakesIdle(s: State, t: State, c: Cpu)
    requires Inv(s) && IdleWakes(s) && OwnStep(s, t, c) && OwnerOk(t)
    ensures IdleWakes(t)
  {
    Fits(s, c);
    OwnSleeps(s.thr[c], s.k, t.thr[c], t.k);
    hide LockOk, CountOk, ScanOk, AllLocal, Own, Sane, Owns;
    if t.k.pending == 0 && exists d :: d in t.thr && SleepsIdle(t.thr[d]) {
      var d :| d in t.thr && SleepsIdle(t.thr[d]);
      assert d != c && SleepsIdle(s.thr[d]);
      assert SamePcs(s, t, c);
      if s.k.pending == 0 {
        SomebodyStays(s, t, c, XBroadcast);
      } else {
        OwnerMustLeave(s, t, c);
        assert t.thr[c].pc == XBroadcast;
      }
    }
  }

  lemma OwnerMustLeave(s: State, t: State, c: Cpu)
    requires OwnerOk(s) && OwnerOk(t) && OwnStep(s, t, c) && s.k.pending != 0 && t.k.pending == 0
    ensures OwnedBy(s, c)
  {
    hide Own, Owns;
    var o :| OwnedBy(s, o);
    assert o != c ==> OwnedBy(t, o);
  }

  lemma OwnWakes(s: State, t: State, c: Cpu)
    requires Inv(s) && WakeOk(s) && OwnStep(s, t, c) && Inv(t)
    ensures WakeOk(t)
  {
    OwnWakesStarter(s, t, c);
    OwnWakesIdle(s, t, c);
  }

  /** A broadcast or a signal leaves nobody asleep whom it concerns. */
  ghost predicate WokenAt(s: State, t: State, c: Cpu, d: Cpu)
    requires c in s.thr && d in s.thr && d in t.thr
  {
    var pc := s.thr[c].pc;
    && (t.thr[d].pc == SeWaitSleep ==> s.thr[d].pc == SeWaitSleep && !(pc == EeSignal && s.k.pending == 1))
    && (SleepsIdle(t.thr[d]) ==> SleepsIdle(s.thr[d]) && pc != XBroadcast)
    && (d != c && s.thr[d].pc in {EeSignal, XBroadcast} ==> t.thr[d].pc == s.thr[d].pc)
  }

  lemma Woken(s: State, t: State, c: Cpu)
    requires c in s.thr && s.thr[c].pc in {EeSignal, XBroadcast} && Cross(s, t, c)
    ensures WokenBy(s, t, c)
  {
  }

  ghost predicate WokenBy(s: State, t: State, c: Cpu)
    requires c in s.thr
  {
    t.k == s.k && t.thr.Keys == s.thr.Keys && forall d :: d in s.thr ==> WokenAt(s, t, c, d)
  }

  lemma WokenStarter(s: State, t: State, c: Cpu)
    requires OwnerOk(s) && StarterWakes(s) && c in s.thr && s.thr[c].pc in {EeSignal, XBroadcast} && WokenBy(s, t, c)
    ensures StarterWakes(t)
  {
    if t.k.pending <= 1 && Somebody(t, SeWaitSleep) {
      var o :| o in t.thr && t.thr[o].pc == SeWaitSleep;
      assert WokenAt(s, t, c, o) && OwnedBy(s, o);
      var x :| x in s.thr && s.thr[x].pc == EeSignal;
      assert WokenAt(s, t, c, x);
    }
  }

  lemma WokenIdle(s: State, t: State, c: Cpu)
    requires IdleWakes(s) && c in s.thr && s.thr[c].pc in {EeSignal, XBroadcast} && WokenBy(s, t, c)
    ensures IdleWakes(t)
  {
    if t.k.pending == 0 && exists d :: d in t.thr && SleepsIdle(t.thr[d]) {
      var d :| d in t.thr && SleepsIdle(t.thr[d]);
      assert WokenAt(s, t, c, d);
      var x :| x in s.thr && s.thr[x].pc == XBroadcast;
      assert WokenAt(s, t, c, x);
    }
  }

  lemma CrossWakes(s: State, t: State, c: Cpu)
    requires OwnerOk(s) && WakeOk(s) && c in s.thr && Cross(s, t, c)
    ensures WakeOk(t)
  {
    if s.thr[c].pc in {EeSignal, XBroadcast} {
      Woken(s, t, c);
      WokenStarter(s, t, c);
      WokenIdle(s, t, c);
    } else {
      assert SamePcs(s, t, c);
      hide Cross;
      SamePcsWake(s, t, c);
    }
  }

  ghost predicate SamePcs(s: State, t: State, c: Cpu) {
    c in s.thr && t.thr.Keys == s.thr.Keys && forall d :: d in s.thr && d != c ==> t.thr[d].pc == s.thr[d].pc
  }

  lemma SomebodyStays(s: State, t: State, c: Cpu, pc: PC)
    requires SamePcs(s, t, c) && s.thr[c].pc != pc && Somebody(s, pc)
    ensures Somebody(t, pc)
  {
    var x :| x in s.thr && s.thr[x].pc == pc;
    assert t.thr[x].pc == pc;
  }

  lemma SamePcsWake(s: State, t: State, c: Cpu)
    requires WakeOk(s) && OwnerOk(s) && SamePcs(s, t, c)
    requires s.thr[c].pc !in {EeSignal, XBroadcast} && t.thr[c].pc !in {SeWaitSleep, EsSleep, SeSleep}
    requires t.k.pending == s.k.pending || (s.k.pending == 0 && t.k.pending == 1)
    ensures WakeOk(t)
  {
    if t.k.pending <= 1 && Somebody(t, SeWaitSleep) {
      var o :| o in t.thr && t.thr[o].pc == SeWaitSleep;
      assert s.thr[o].pc == SeWaitSleep && OwnedBy(s, o);
      SomebodyStays(s, t, c, EeSignal);
    }
    if t.k.pending == 0 && exists d :: d in t.thr && SleepsIdle(t.thr[d]) {
      var d :| d in t.thr && SleepsIdle(t.thr[d]);
      assert SleepsIdle(s.thr[d]);
      SomebodyStays(s, t, c, XBroadcast);
    }
  }

  lemma ListWakes(s: State, t: State, c: Cpu)
    requires WakeOk(s) && ListStep(s, t, c)
    ensures WakeOk(t)
  {
    forall x, pc | x in s.thr && s.thr[x].pc == pc && pc in {EeSignal, XBroadcast} ensures Somebody(t, pc) {
      assert t.thr[x].pc == pc;
    }
    if Somebody(t, SeWaitSleep) {
      var o :| o in t.thr && t.thr[o].pc == SeWaitSleep;
      assert s.thr[o].pc == SeWaitSleep;
    }
    if exists d :: d in t.thr && SleepsIdle(t.thr[d]) {
      var d :| d in t.thr && SleepsIdle(t.thr[d]);
      assert SleepsIdle(s.thr[d]);
    }
  }

  lemma NextWakes(s: State, t: State)
    requires Inv(s) && WakeOk(s) && Next(s, t) && Inv(t)
    ensures WakeOk(t)
  {
    hide Inv, Cross, OwnStep, ListStep, WakeOk;
    var c :| ThreadStep(s, t, c) || ListStep(s, t, c);
    if OwnStep(s, t, c) {
      OwnWakes(s, t, c);
    } else if ListStep(s, t, c) {
      ListWakes(s, t, c);
    } else {
      assert OwnerOk(s) by { InvOwner(s); }
      CrossWakes(s, t, c);
    }
  }

  lemma InvOwner(s: State)
    requires Inv(s)
    ensures OwnerOk(s)
  {
  }

  ghost predicate Enabled(s: State, c: Cpu) {
    exists t :: ThreadStep(s, t, c)
  }

  /** The thread can go on without being woken, or it is in guest code that it was
      kicked out of, or in an exclusive section of its own. */
  ghost predicate GoesOn(s: State, c: Cpu) {
    && c in s.thr
    && if s.thr[c].pc == Exec then s.thr[c].hasWaiter
       else if s.thr[c].pc == Out then s.thr[c].count > 0
       else Enabled(s, c) && s.thr[c].pc !in {EsSleep, SeSleep, SeWaitSleep}
  }

  lemma OwnEnabled(s: State, c: Cpu, th2: Thread, k2: Shared)
    requires c in s.thr && Own(s.thr[c], s.k, th2, k2)
    ensures Enabled(s, c)
  {
    var t := State(s.thr[c := th2], k2);
    assert t.thr[c] == th2;
    assert ThreadStep(s, t, c);
  }

  lemma CrossEnabled(s: State, t: State, c: Cpu)
    requires c in s.thr && Cross(s, t, c)
    ensures Enabled(s, c)
  {
    assert ThreadStep(s, t, c);
  }

  /** Whoever holds the lock can go on. */
  lemma HolderGoesOn(s: State, c: Cpu)
    requires Inv(s) && HasLock(s, c)
    ensures GoesOn(s, c)
  {
    var th := s.thr[c];
    hide CountOk, LockOk, OwnerOk, AllLocal;
    match th.pc
    case EsCheck => OwnEnabled(s, c, if th.hasWaiter then th.(pc := EsUnlock)
        else th.(running := false, pc := EsIdle), s.k);
    case EsIdle =>
      if s.k.pending != 0 {
        OwnEnabled(s, c, th.(pc := EsSleep), Free(s.k));
      } else {
        OwnEnabled(s, c, th.(running := true, pc := EsUnlock), s.k);
      }
    case EsUnlock => OwnEnabled(s, c, th.(pc := Exec), Free(s.k));
    case EeCheck => OwnEnabled(s, c, if th.hasWaiter then th.(hasWaiter := false, pc := EeDec)
        else th.(pc := EeUnlock), s.k);
    case EeDec => OwnEnabled(s, c, th.(pc := EeSignal), s.k.(pending := s.k.pending - 1));
    case EeSignal =>
      var thr := if s.k.pending == 1 then WakeAll(s.thr, WakeStarter) else s.thr;
      CrossEnabled(s, s.(thr := thr[c := th.(pc := EeUnlock)]), c);
    case EeUnlock => OwnEnabled(s, c, th.(pc := Out), Free(s.k));
    case SeIdle =>
      if s.k.pending != 0 {
        OwnEnabled(s, c, th.(pc := SeSleep), Free(s.k));
      } else {
        CrossEnabled(s, State(s.thr[c := th.(pc := SeScan(s.thr.Keys, 0))], s.k.(pending := 1)), c);
      }
    case SeScan(_, _) => ScannerGoesOn(s, c);
    case SeMark(_, _, _) => ScannerGoesOn(s, c);
    case SeWait =>
      if s.k.pending > 1 {
        OwnEnabled(s, c, th.(pc := SeWaitSleep), Free(s.k));
      } else {
        OwnEnabled(s, c, th.(pc := SeUnlock), s.k);
      }
    case SeUnlock => OwnEnabled(s, c, th.(pc := SeEnter), Free(s.k));
    case XClear => OwnEnabled(s, c, th.(pc := XBroadcast), s.k.(pending := 0));
    case XBroadcast => CrossEnabled(s, s.(thr := WakeAll(s.thr, WakeIdle)[c := th.(pc := XUnlock)]), c);
    case XUnlock => OwnEnabled(s, c, th.(pc := Out), Free(s.k));
  }

  lemma ScannerGoesOn(s: State, c: Cpu)
    requires Inv(s) && c in s.thr && Scanning(s.thr[c].pc)
    ensures GoesOn(s, c)
  {
    var th := s.thr[c];
    assert ScanOkFor(s, c);
    if th.pc.SeMark? {
      CrossEnabled(s, s.(thr := Mark(s.thr, th.pc.d)[c := th.(pc := SeScan(th.pc.todo, th.pc.n + 1))]), c);
    } else if th.pc.todo == {} {
      OwnEnabled(s, c, th.(pc := SeWait), s.k.(pending := th.pc.n + 1));
    } else {
      var d :| d in th.pc.todo;
      var pc := if s.thr[d].running then SeMark(th.pc.todo - {d}, th.pc.n, d) else SeScan(th.pc.todo - {d}, th.pc.n);
      var t := s.(thr := s.thr[c := th.(pc := pc)]);
      assert ScanOne(s, t, c, d);
      CrossEnabled(s, t, c);
    }
  }

  /** With the lock free, whoever is awake in the middle of a call can go on. */
  lemma AwakeGoesOn(s: State, c: Cpu)
    requires c in s.thr && !s.k.lock && !Holds(s.thr[c].pc)
    requires s.thr[c].pc !in {Out, Exec, EsSleep, SeSleep, SeWaitSleep}
    ensures GoesOn(s, c)
  {
    var th, k2 := s.thr[c], s.k.(lock := true);
    match th.pc
    case EsRead => OwnEnabled(s, c, th.(pc := if s.k.pending != 0 then EsLock else Exec), s.k);
    case EsLock => OwnEnabled(s, c, th.(pc := EsCheck), k2);
    case EsRelock => OwnEnabled(s, c, th.(pc := EsIdle), k2);
    case EeRead => OwnEnabled(s, c, th.(pc := if s.k.pending != 0 then EeLock else Out), s.k);
    case EeLock => OwnEnabled(s, c, th.(pc := EeCheck), k2);
    case SeLock => OwnEnabled(s, c, th.(pc := SeIdle), k2);
    case SeRelock => OwnEnabled(s, c, th.(pc := SeIdle), k2);
    case SeWaitRelock => OwnEnabled(s, c, th.(pc := SeWait), k2);
    case SeEnter => OwnEnabled(s, c, th.(count := 1, pc := Out), s.k);
    case XLock => OwnEnabled(s, c, th.(pc := XClear), k2);
  }

  lemma NobodyHolds(s: State, pc: PC)
    requires LockOk(s) && !s.k.lock && Holds(pc)
    ensures !Somebody(s, pc)
  {
    forall x | x in s.thr ensures s.thr[x].pc != pc {
      assert HasLock(s, x) ==> s.k.lock;
    }
  }

  /** A section that is announced does not hang: its owner goes on, or a CPU it
      waits for does. */
  lemma OwnerGoesOn(s: State, o: Cpu)
    requires Inv(s) && WakeOk(s) && !s.k.lock && OwnedBy(s, o)
    requires s.thr[o].count > 0 ==> s.thr[o].pc == Out
    ensures exists c :: GoesOn(s, c)
  {
    forall c ensures !HasLock(s, c) {
      assert HasLock(s, c) ==> s.k.lock;
    }
    if s.thr[o].pc == SeWaitSleep {
      assert CountOkFor(s, o) && Somebody(s, SeWaitSleep);
      NobodyHolds(s, EeSignal);
      assert s.k.pending > 1;
      var c :| c in Counted(s);
      assert !HasLock(s, c) && LocalOk(s.thr[c]);
      if s.thr[c].pc != Exec {
        AwakeGoesOn(s, c);
      }
      assert GoesOn(s, c);
    } else if s.thr[o].count > 0 {
      assert GoesOn(s, o);
    } else {
      assert !HasLock(s, o);
      AwakeGoesOn(s, o);
    }
  }

  /** In every state of every run: if some thread is in the middle of one of the four
      functions, then some thread goes on. The callers' part is not to enter
      cpu_exec_start inside one's own exclusive section. */
  lemma NoDeadlock(r: seq<State>, i: nat, b: Cpu)
    requires Run(r) && i < |r| && b in r[i].thr && r[i].thr[b].pc !in {Out, Exec}
    requires forall c :: c in r[i].thr && r[i].thr[c].count > 0 ==> r[i].thr[c].pc == Out
    ensures exists c :: GoesOn(r[i], c)
  {
    var s := r[i];
    RunKeeps(r, i);
    if s.k.lock {
      var h :| HasLock(s, h);
      HolderGoesOn(s, h);
    } else {
      assert !HasLock(s, b);
      if s.thr[b].pc !in {EsSleep, SeSleep, SeWaitSleep} {
        AwakeGoesOn(s, b);
      } else {
        var o := SleepersOwner(s, b);
        OwnerGoesOn(s, o);
      }
    }
  }

  lemma SleepersOwner(s: State, b: Cpu) returns (o: Cpu)
    requires Inv(s) && WakeOk(s) && !s.k.lock && b in s.thr && s.thr[b].pc in {EsSleep, SeSleep, SeWaitSleep}
    ensures OwnedBy(s, o)
  {
    if s.thr[b].pc == SeWaitSleep {
      assert OwnedBy(s, b);
      o := b;
    } else {
      assert SleepsIdle(s.thr[b]);
      NobodyHolds(s, XBroadcast);
      o :| OwnedBy(s, o);
    }
  }

  /** The assertion in start_exclusive: a caller outside the four functions is not
      marked running. */
  lemma StarterNotRunning(r: seq<State>, i: nat, c: Cpu)
    requires Run(r) && i < |r| && c in r[i].thr && r[i].thr[c].pc == Out
    ensures !r[i].thr[c].running && !r[i].thr[c].hasWaiter
  {
    RunKeeps(r, i);
    assert LocalOk(r[i].thr[c]);
  }
}
