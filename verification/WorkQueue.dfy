/** The per-CPU work queue, run by CPU threads that also take part in the
    exclusive-section protocol, and the big lock under which requesters wait for it. The
    teardown of a queue is not part of a run. */
module WorkQueue {
  import opened Options
  import opened Seqs
  import opened Exclusive

  type ItemId = nat

  /** A qemu_work_item. `sync` items live on the stack of a waiting requester. */
  datatype Item = Item(cpu: Cpu, exclusive: bool, sync: bool, done: bool)

  /** Where a CPU's thread stands in process_queued_cpu_work. */
  datatype WPC =
    | Idle                            // not in it
    | Head                            // holds work_mutex, at the loop head
    | Plain(i: ItemId)                // took `i` off the queue, will call its function
    | Start(i: ItemId)                // will drop the big lock and call start_exclusive
    | Starting(i: ItemId)             // in start_exclusive
    | Special(i: ItemId)              // back from it, will call the function
    | End(i: ItemId)                  // will call end_exclusive
    | Ending(i: ItemId)               // in end_exclusive, will take the big lock back
    | Ran(i: ItemId)                  // will take work_mutex back
    | Finish(i: ItemId)               // holds it, will free `i` or mark it done
    | Wake                            // will broadcast qemu_work_cond

  /** A queue with the history of what was put in, taken out and run, in order. */
  datatype Queue = Queue(list: seq<ItemId>, mutex: bool, pc: WPC, put: seq<ItemId>, taken: seq<ItemId>,
      ran: seq<ItemId>)

  /** A thread that calls do_run_on_cpu. */
  datatype RPC =
    | Free
    | Ready                           // holds the big lock, will queue its item
    | Waiting(i: ItemId)              // holds it, will test whether the item is done
    | Unready(i: ItemId)              // holds it, has seen that it is not, will sleep
    | Asleep(i: ItemId)               // on qemu_work_cond, the lock released
    | Woken(i: ItemId)                // will take the lock back
    | Returned(i: ItemId)             // holds it

  datatype Holder = Worker(c: Cpu) | Requester(r: nat) | Somebody

  /** `big` is who holds the big lock. */
  datatype World = World(ex: State, queues: map<Cpu, Queue>, items: map<ItemId, Item>, reqs: map<nat, RPC>,
      big: Option<Holder>)

  const EMPTY := Queue([], false, Idle, [], [], [])

  ghost predicate Begin(w: World) {
    && Init(w.ex) && w.queues.Keys == w.ex.thr.Keys && w.items == map[]
    && (forall c :: c in w.queues ==> w.queues[c] == EMPTY)
    && (forall r :: r in w.reqs ==> w.reqs[r] == Free) && w.big == None
  }

  // ---------------------------------------------------------------------------
  // Steps.

  /** queue_work_on_cpu: the item is new, the mutex free. */
  predicate Enqueue(w: World, v: World, c: Cpu, i: ItemId, exclusive: bool, sync: bool) {
    && c in w.queues && !w.queues[c].mutex && i !in w.items
    && v == w.(queues := w.queues[c := w.queues[c].(list := w.queues[c].list + [i], put := w.queues[c].put + [i])],
               items := w.items[i := Item(c, exclusive, sync, false)])
  }

  /** do_run_on_cpu for another CPU. */
  predicate RequestStep(w: World, v: World, r: nat, c: Cpu, i: ItemId) {
    && r in w.reqs
    && match w.reqs[r]
       case Free => w.big == None && v == w.(reqs := w.reqs[r := Ready], big := Some(Requester(r)))
       case Ready => Enqueue(w.(reqs := w.reqs[r := Waiting(i)]), v, c, i, false, true)
       case Waiting(j) =>
         j in w.items && v == w.(reqs := w.reqs[r := if w.items[j].done then Returned(j) else Unready(j)])
       case Unready(j) => v == w.(reqs := w.reqs[r := Asleep(j)], big := None)
       case Asleep(j) => v == w.(reqs := w.reqs[r := Woken(j)])      // a spurious wake-up
       case Woken(j) => w.big == None && v == w.(reqs := w.reqs[r := Waiting(j)], big := Some(Requester(r)))
       case Returned(_) => v == w.(reqs := w.reqs[r := Free], big := None)
  }

  /** The broadcast. */
  function AllWoken(reqs: map<nat, RPC>): map<nat, RPC> {
    map r | r in reqs :: if reqs[r].Asleep? then Woken(reqs[r].i) else reqs[r]
  }

  /** A CPU thread takes or drops the big lock around process_queued_cpu_work, any other
      thread whenever it likes. */
  predicate BigStep(w: World, v: World, h: Holder) {
    && (h.Somebody? || (h.Worker? && h.c in w.queues && w.queues[h.c].pc == Idle))
    && ((w.big == None && v == w.(big := Some(h))) || (w.big == Some(h) && v == w.(big := None)))
  }

  /** process_queued_cpu_work, apart from the calls into the exclusive protocol. */
  predicate Process(q: Queue, items: map<ItemId, Item>, th: Thread, q2: Queue, items2: map<ItemId, Item>) {
    match q.pc
    case Idle => th.pc == Out && !q.mutex && items2 == items
                 && q2 == if q.list == [] then q else q.(mutex := true, pc := Head)
    case Head =>
      && items2 == items
      && if q.list == [] then q2 == q.(mutex := false, pc := Wake)
         else
           var i := q.list[0];
           && i in items
           && q2 == q.(list := q.list[1..], mutex := false, taken := q.taken + [i],
                       pc := if items[i].exclusive then Start(i) else Plain(i))
    case Plain(i) => items2 == items && q2 == q.(ran := q.ran + [i], pc := Ran(i))
    case Starting(i) => th.pc == Out && items2 == items && q2 == q.(pc := Special(i))
    case Special(i) => items2 == items && q2 == q.(ran := q.ran + [i], pc := End(i))
    case Ending(i) => th.pc == Out && items2 == items && q2 == q.(pc := Ran(i))
    case Ran(i) => !q.mutex && items2 == items && q2 == q.(mutex := true, pc := Finish(i))
    case Finish(i) => i in items && q2 == q.(pc := Head)
                      && items2 == if items[i].sync then items[i := items[i].(done := true)] else items
    case Wake => items2 == items && q2 == q.(pc := Idle)
    case _ => false
  }

  predicate ProcessStep(w: World, v: World, c: Cpu) {
    && c in w.queues && c in v.queues && c in w.ex.thr
    && Process(w.queues[c], w.items, w.ex.thr[c], v.queues[c], v.items)
    && (if Unlocked(w.queues[c].pc) then v.big == if w.queues[c].pc.Ending? then Some(Worker(c)) else w.big
        else w.big == Some(Worker(c)) == v.big)
    && (w.queues[c].pc.Ending? ==> w.big == None)
    && v == w.(queues := w.queues[c := v.queues[c]], items := v.items, big := v.big,
               reqs := if w.queues[c].pc.Wake? then AllWoken(w.reqs) else w.reqs)
  }

  /** The worker has dropped the big lock for an exclusive item. */
  predicate Unlocked(pc: WPC) {
    pc.Starting? || pc.Special? || pc.End? || pc.Ending?
  }

  /** start_exclusive is entered from Out, and so is end_exclusive. */
  predicate CallsStart(th: Thread, th2: Thread) {
    th.pc == Out && th2 == if th.count > 0 then th.(count := th.count + 1) else th.(pc := SeLock)
  }

  predicate CallsEnd(th: Thread, th2: Thread) {
    && th.pc == Out
    && ((th.count > 1 && th2 == th.(count := th.count - 1)) || (th.count == 1 && th2 == th.(count := 0, pc := XLock)))
  }

  predicate CallStep(w: World, v: World, c: Cpu) {
    && c in w.queues && c in w.ex.thr && c in v.ex.thr
    && v.ex == w.ex.(thr := w.ex.thr[c := v.ex.thr[c]])
    && var q := w.queues[c];
       || (q.pc.Start? && CallsStart(w.ex.thr[c], v.ex.thr[c]) && w.big == Some(Worker(c))
           && v == w.(ex := v.ex, big := None, queues := w.queues[c := q.(pc := Starting(q.pc.i))]))
       || (q.pc.End? && CallsEnd(w.ex.thr[c], v.ex.thr[c])
           && v == w.(ex := v.ex, queues := w.queues[c := q.(pc := Ending(q.pc.i))]))
  }

  /** Everything else a CPU thread does in the exclusive protocol: finishing a call,
      or, outside process_queued_cpu_work, entering one. */
  ghost predicate ExclusiveStep(w: World, v: World, c: Cpu) {
    && c in w.ex.thr && c in w.queues && (w.ex.thr[c].pc == Out ==> w.queues[c].pc == Idle)
    && ThreadStep(w.ex, v.ex, c) && v == w.(ex := v.ex)
  }

  /** A CPU joins with an empty queue. */
  ghost predicate JoinStep(w: World, v: World, c: Cpu) {
    && c !in w.ex.thr && ListStep(w.ex, v.ex, c)
    && v == w.(ex := v.ex, queues := w.queues[c := EMPTY])
  }

  ghost predicate Step(w: World, v: World) {
    || (exists c, i, exclusive :: Enqueue(w, v, c, i, exclusive, false))
    || (exists r, c, i :: RequestStep(w, v, r, c, i))
    || (exists h :: BigStep(w, v, h))
    || (exists c :: ProcessStep(w, v, c) || CallStep(w, v, c) || ExclusiveStep(w, v, c) || JoinStep(w, v, c))
  }

  ghost predicate Trace(r: seq<World>) {
    r != [] && Begin(r[0]) && forall i :: 0 <= i < |r| - 1 ==> Step(r[i], r[i + 1])
  }

  // ---------------------------------------------------------------------------
  // The invariant.

  /** The item a worker has in hand. */
  predicate InHand(pc: WPC, i: ItemId) {
    !pc.Idle? && !pc.Head? && !pc.Wake? && pc.i == i
  }

  /** Its function has not been called yet. */
  predicate ToRun(pc: WPC) {
    pc.Plain? || pc.Start? || pc.Starting? || pc.Special?
  }

  predicate InSection(pc: WPC) {
    pc.Start? || pc.Starting? || pc.Special? || pc.End? || pc.Ending?
  }

  predicate Entering(pc: PC) {
    pc in {SeLock, SeIdle, SeSleep, SeRelock, SeWait, SeWaitSleep, SeWaitRelock, SeUnlock, SeEnter} || Scanning(pc)
  }

  predicate Leaving(pc: PC) {
    pc in {XLock, XClear, XBroadcast, XUnlock}
  }

  /** Where the two machines of one thread can be together. */
  predicate Together(pc: WPC, th: Thread) {
    if pc.Idle? then true
    else if pc.Starting? then Entering(th.pc) || (th.pc == Out && th.count > 0)
    else if pc.Ending? then Leaving(th.pc) || th.pc == Out
    else th.pc == Out && (pc.Special? || pc.End? ==> th.count > 0)
  }

  /** First in, first out, each item run at most once. */
  ghost predicate HistoryOk(q: Queue) {
    && NoDup(q.put) && q.put == q.taken + q.list
    && (if ToRun(q.pc) then q.taken == q.ran + [q.pc.i] else q.taken == q.ran)
    && (forall i :: InHand(q.pc, i) && !ToRun(q.pc) ==> i in q.ran)
    && (q.mutex <==> q.pc.Head? || q.pc.Finish?)
  }

  ghost predicate KindOk(q: Queue, items: map<ItemId, Item>, c: Cpu) {
    && (forall i :: i in q.put ==> i in items && items[i].cpu == c)
    && (forall i :: InHand(q.pc, i) ==> i in q.put && !items[i].done)
    && (InSection(q.pc) && q.pc.i in items ==> items[q.pc.i].exclusive)
    && (q.pc.Plain? && q.pc.i in items ==> !items[q.pc.i].exclusive)
    && (forall i :: i in q.put && items[i].done ==> i in q.ran)
  }

  /** A requester's item that was run and put aside is marked done. */
  ghost predicate Marked(q: Queue, items: map<ItemId, Item>) {
    forall i :: i in q.put && i in q.ran && i in items && items[i].sync && !InHand(q.pc, i) ==> items[i].done
  }

  ghost predicate CpuOk(w: World, c: Cpu) {
    c in w.ex.thr && c in w.queues && HistoryOk(w.queues[c]) && KindOk(w.queues[c], w.items, c)
    && Together(w.queues[c].pc, w.ex.thr[c]) && Marked(w.queues[c], w.items)
  }

  ghost predicate ReqOk(w: World, r: nat) {
    r in w.reqs && !w.reqs[r].Free? && !w.reqs[r].Ready? ==>
      && w.reqs[r].i in w.items && w.items[w.reqs[r].i].sync && w.items[w.reqs[r].i].cpu in w.queues
      && w.reqs[r].i in w.queues[w.items[w.reqs[r].i].cpu].put
      && (w.reqs[r].Returned? ==> w.items[w.reqs[r].i].done)
  }

  predicate Holds(pc: RPC) {
    pc.Ready? || pc.Waiting? || pc.Unready? || pc.Returned?
  }

  /** The big lock has one holder. */
  ghost predicate LockOk(w: World) {
    && (forall c :: c in w.queues && !w.queues[c].pc.Idle? && !Unlocked(w.queues[c].pc) ==> w.big == Some(Worker(c)))
    && (forall r :: r in w.reqs && Holds(w.reqs[r]) ==> w.big == Some(Requester(r)))
  }

  /** Who is about to sleep has reason to; who sleeps without has a broadcast coming. */
  ghost predicate SleepOk(w: World, r: nat) {
    r in w.reqs && (w.reqs[r].Unready? || w.reqs[r].Asleep?) && w.reqs[r].i in w.items && w.items[w.reqs[r].i].done ==>
      w.reqs[r].Asleep? && w.items[w.reqs[r].i].cpu in w.queues && !w.queues[w.items[w.reqs[r].i].cpu].pc.Idle?
  }

  ghost predicate Good(w: World) {
    && Inv(w.ex) && w.queues.Keys == w.ex.thr.Keys
    && (forall c :: c in w.queues ==> CpuOk(w, c))
    && (forall r :: ReqOk(w, r))
    && LockOk(w) && (forall r :: SleepOk(w, r))
  }

  lemma BeginGood(w: World)
    requires Begin(w)
    ensures Good(w)
  {
    InitInv(w.ex);
  }

  lemma PutOne(q: Queue, q2: Queue, items: map<ItemId, Item>, items2: map<ItemId, Item>, c: Cpu, i: ItemId)
    requires HistoryOk(q) && KindOk(q, items, c) && !q.mutex && i !in items && i in items2 && items2 - {i} == items
    requires Marked(q, items)
    requires q2 == q.(list := q.list + [i], put := q.put + [i])
    requires items2[i].cpu == c && !items2[i].done
    ensures HistoryOk(q2) && KindOk(q2, items2, c) && Marked(q2, items2)
  {
    assert forall k :: k in items ==> k in items2 && items2[k] == items[k] by {
      forall k | k in items ensures k in items2 && items2[k] == items[k] {
        assert k in items2 - {i};
      }
    }
    assert i !in q.put;
    assert q2.put == q.taken + (q.list + [i]);
  }

  lemma NewItem(q: Queue, items: map<ItemId, Item>, items2: map<ItemId, Item>, c: Cpu, i: ItemId)
    requires KindOk(q, items, c) && Marked(q, items) && i !in items && i in items2 && items2 == items[i := items2[i]]
    ensures KindOk(q, items2, c) && Marked(q, items2)
  {
  }

  lemma EnqueueKeeps(w: World, v: World, c: Cpu, i: ItemId, exclusive: bool, sync: bool)
    requires Good(w) && Enqueue(w, v, c, i, exclusive, sync)
    ensures Good(v) && i in v.queues[c].put && v.items[i].sync == sync
  {
    hide Inv, HistoryOk, KindOk, Marked, Together;
    assert CpuOk(w, c);
    assert v.items - {i} == w.items;
    PutOne(w.queues[c], v.queues[c], w.items, v.items, c, i);
    forall d | d in v.queues ensures CpuOk(v, d) {
      assert CpuOk(w, d);
      if d != c {
        NewItem(w.queues[d], w.items, v.items, d, i);
      }
    }
    forall r ensures ReqOk(v, r) && SleepOk(v, r) {
      assert ReqOk(w, r) && SleepOk(w, r);
    }
  }

  lemma RequestKeeps(w: World, v: World, r: nat, c: Cpu, i: ItemId)
    requires Good(w) && RequestStep(w, v, r, c, i)
    ensures Good(v)
  {
    hide Inv, CpuOk, LockOk;
    assert ReqOk(w, r) && SleepOk(w, r);
    RequestLock(w, v, r, c, i);
    if w.reqs[r].Ready? {
      var u := v.(reqs := w.reqs);
      EnqueueKeeps(w, u, c, i, false, true);
      assert v == u.(reqs := w.reqs[r := Waiting(i)]);
      SameQueues(u, v);
      forall q ensures ReqOk(v, q) && SleepOk(v, q) {
        assert ReqOk(u, q) && SleepOk(u, q);
      }
    } else {
      SameQueues(w, v);
      forall q ensures ReqOk(v, q) && SleepOk(v, q) {
        assert ReqOk(w, q) && SleepOk(w, q);
      }
    }
  }

  lemma RequestLock(w: World, v: World, r: nat, c: Cpu, i: ItemId)
    requires LockOk(w) && RequestStep(w, v, r, c, i)
    ensures LockOk(v)
  {
  }

  lemma BigKeeps(w: World, v: World, h: Holder)
    requires Good(w) && BigStep(w, v, h)
    ensures Good(v)
  {
    hide Inv, CpuOk;
    SameQueues(w, v);
    forall q ensures ReqOk(v, q) && SleepOk(v, q) {
      assert ReqOk(w, q) && SleepOk(w, q);
    }
  }

  lemma SameQueues(w: World, v: World)
    requires Good(w) && v == w.(reqs := v.reqs, big := v.big)
    ensures Inv(v.ex) && v.queues.Keys == v.ex.thr.Keys && forall c :: c in v.queues ==> CpuOk(v, c)
  {
    hide Inv;
    forall c | c in v.queues ensures CpuOk(v, c) {
      assert CpuOk(w, c);
    }
  }

  /** One queue's worker, with nothing else in sight. */
  lemma ProcessHistory(q: Queue, items: map<ItemId, Item>, th: Thread, q2: Queue, items2: map<ItemId, Item>)
    requires HistoryOk(q) && Process(q, items, th, q2, items2)
    ensures HistoryOk(q2) && q2.put == q.put
    ensures q2.ran == if q.pc.Plain? || q.pc.Special? then q.ran + [q.pc.i] else q.ran
  {
    if q.pc.Head? && q.list != [] {
      assert q.list == [q.list[0]] + q.list[1..];
    }
  }

  lemma ProcessKind(q: Queue, items: map<ItemId, Item>, th: Thread, q2: Queue, items2: map<ItemId, Item>, c: Cpu)
    requires HistoryOk(q) && KindOk(q, items, c) && Process(q, items, th, q2, items2)
    ensures KindOk(q2, items2, c)
  {
    ProcessHistory(q, items, th, q2, items2);
    if q.pc.Head? && q.list != [] {
      var i := q.list[0];
      assert q.put[|q.taken|] == i;
      forall k | 0 <= k < |q.taken| ensures q.taken[k] != i {
        assert q.put[k] != q.put[|q.taken|];
      }
    }
  }

  lemma ProcessMarked(q: Queue, items: map<ItemId, Item>, th: Thread, q2: Queue, items2: map<ItemId, Item>)
    requires HistoryOk(q) && Marked(q, items) && Process(q, items, th, q2, items2)
    requires forall i :: InHand(q.pc, i) ==> i in q.put
    ensures Marked(q2, items2)
  {
    hide HistoryOk;
    ProcessHistory(q, items, th, q2, items2);
  }

  lemma ProcessTogether(q: Queue, items: map<ItemId, Item>, th: Thread, q2: Queue, items2: map<ItemId, Item>)
    requires Process(q, items, th, q2, items2) && Together(q.pc, th)
    ensures Together(q2.pc, th)
  {
  }

  /** A finished item belongs to the queue that ran it. */
  lemma ProcessElsewhere(q: Queue, items: map<ItemId, Item>, th: Thread, q2: Queue, items2: map<ItemId, Item>, c: Cpu,
                         p: Queue, d: Cpu)
    requires KindOk(q, items, c) && Process(q, items, th, q2, items2) && KindOk(p, items, d) && d != c
    ensures KindOk(p, items2, d) && (Marked(p, items) ==> Marked(p, items2))
  {
    if q.pc.Finish? {
      assert InHand(q.pc, q.pc.i);
      assert q.pc.i !in p.put;
    }
  }

  lemma ProcessItems(q: Queue, items: map<ItemId, Item>, th: Thread, q2: Queue, items2: map<ItemId, Item>)
    requires Process(q, items, th, q2, items2)
    ensures forall i :: i in items ==>
              i in items2 && items2[i] == items[i].(done := items2[i].done) && (items[i].done ==> items2[i].done)
  {
  }

  lemma ProcessKeeps(w: World, v: World, c: Cpu)
    requires Good(w) && ProcessStep(w, v, c)
    ensures Good(v)
  {
    hide Inv, HistoryOk, KindOk, Marked, Together, Process;
    var q, q2, th := w.queues[c], v.queues[c], w.ex.thr[c];
    assert CpuOk(w, c);
    ProcessHistory(q, w.items, th, q2, v.items);
    ProcessKind(q, w.items, th, q2, v.items, c);
    HandHere(q, w.items, c);
    ProcessMarked(q, w.items, th, q2, v.items);
    ProcessTogether(q, w.items, th, q2, v.items);
    ProcessItems(q, w.items, th, q2, v.items);
    forall d | d in v.queues ensures CpuOk(v, d) {
      assert CpuOk(w, d);
      if d != c {
        ProcessElsewhere(q, w.items, th, q2, v.items, c, w.queues[d], d);
      }
    }
    forall r ensures ReqOk(v, r) {
      assert ReqOk(w, r);
    }
    ProcessLock(w, v, c);
    forall r ensures SleepOk(v, r) {
      ProcessSleep(w, v, c, r);
    }
  }

  lemma HandHere(q: Queue, items: map<ItemId, Item>, c: Cpu)
    requires KindOk(q, items, c)
    ensures forall i :: InHand(q.pc, i) ==> i in q.put && (i in items ==> items[i].cpu == c)
  {
  }

  lemma ProcessLock(w: World, v: World, c: Cpu)
    requires LockOk(w) && ProcessStep(w, v, c)
    ensures LockOk(v)
  {
  }

  /** The worker marks an item done under the lock that its requester holds from the test
      to the wait, and does not leave without a broadcast. */
  lemma ProcessSleep(w: World, v: World, c: Cpu, r: nat)
    requires LockOk(w) && ReqOk(w, r) && SleepOk(w, r) && ProcessStep(w, v, c)
    requires forall i :: InHand(w.queues[c].pc, i) && i in w.items ==> w.items[i].cpu == c
    ensures SleepOk(v, r)
  {
    if r in v.reqs && (v.reqs[r].Unready? || v.reqs[r].Asleep?) {
      assert v.reqs[r] == w.reqs[r];
      assert w.queues[c].pc.Finish? ==> InHand(w.queues[c].pc, w.queues[c].pc.i);
    }
  }

  /** Changes in the exclusive protocol alone, and of one worker's place. */
  lemma PlaceKeeps(w: World, v: World, c: Cpu)
    requires Good(w) && c in w.queues && c in v.queues && v.queues == w.queues[c := w.queues[c].(pc := v.queues[c].pc)]
    requires v.items == w.items && v.reqs == w.reqs && Inv(v.ex) && v.ex.thr.Keys == w.ex.thr.Keys
    requires LockOk(v) && (w.queues[c].pc.Idle? <==> v.queues[c].pc.Idle?)
    requires forall d :: d in w.queues ==> Together(v.queues[d].pc, v.ex.thr[d])
    requires HistoryOk(v.queues[c]) && KindOk(v.queues[c], w.items, c) && Marked(v.queues[c], w.items)
    ensures Good(v)
  {
    hide Inv, HistoryOk, KindOk, Marked, Together;
    forall d | d in v.queues ensures CpuOk(v, d) {
      assert CpuOk(w, d);
    }
    forall r ensures ReqOk(v, r) && SleepOk(v, r) {
      assert ReqOk(w, r) && SleepOk(w, r);
    }
  }

  lemma CallIsStep(w: World, v: World, c: Cpu)
    requires CallStep(w, v, c)
    ensures ThreadStep(w.ex, v.ex, c)
  {
    assert Call(w.ex.thr[c], v.ex.thr[c]);
    assert OwnStep(w.ex, v.ex, c);
  }

  lemma CallPlace(q: Queue, q2: Queue, items: map<ItemId, Item>, c: Cpu, th: Thread, th2: Thread)
    requires HistoryOk(q) && KindOk(q, items, c) && (q.pc.Start? || q.pc.End?)
    requires q2 == q.(pc := if q.pc.Start? then Starting(q.pc.i) else Ending(q.pc.i))
    requires if q.pc.Start? then CallsStart(th, th2) else CallsEnd(th, th2)
    ensures HistoryOk(q2) && KindOk(q2, items, c) && Together(q2.pc, th2) && (Marked(q, items) ==> Marked(q2, items))
  {
    assert InHand(q.pc, q.pc.i);
  }

  lemma CallKeeps(w: World, v: World, c: Cpu)
    requires Good(w) && CallStep(w, v, c)
    ensures Good(v)
  {
    hide Inv, HistoryOk, KindOk, Marked, Together, CallsStart, CallsEnd;
    assert CpuOk(w, c);
    CallPlace(w.queues[c], v.queues[c], w.items, c, w.ex.thr[c], v.ex.thr[c]);
    CallIsStep(w, v, c);
    assert Next(w.ex, v.ex);
    NextKeeps(w.ex, v.ex);
    forall d | d in w.queues ensures Together(v.queues[d].pc, v.ex.thr[d]) {
      assert CpuOk(w, d);
    }
    PlaceKeeps(w, v, c);
  }

  /** A call into the exclusive protocol goes through to its return. */
  lemma OwnTogether(th: Thread, k: Shared, th2: Thread, k2: Shared, pc: WPC)
    requires Own(th, k, th2, k2) && Together(pc, th) && (th.pc == Out ==> pc.Idle?)
    ensures Together(pc, th2)
  {
  }

  lemma CrossTogether(s: State, t: State, c: Cpu, d: Cpu, pc: WPC)
    requires c in s.thr && Cross(s, t, c) && d in s.thr && Together(pc, s.thr[d])
    requires d == c && s.thr[c].pc == Out ==> pc.Idle?
    ensures d in t.thr && Together(pc, t.thr[d])
  {
  }

  lemma StepTogether(s: State, t: State, c: Cpu, d: Cpu, pc: WPC)
    requires ThreadStep(s, t, c) && d in s.thr && Together(pc, s.thr[d])
    requires d == c && s.thr[c].pc == Out ==> pc.Idle?
    ensures d in t.thr && Together(pc, t.thr[d])
  {
    if OwnStep(s, t, c) {
      OwnTogether(s.thr[c], s.k, t.thr[c], t.k, if d == c then pc else Idle);
    } else {
      CrossTogether(s, t, c, d, pc);
    }
  }

  lemma StepKeys(s: State, t: State, c: Cpu)
    requires Inv(s) && ThreadStep(s, t, c)
    ensures t.thr.Keys == s.thr.Keys
  {
    if !OwnStep(s, t, c) {
      assert ScanOkFor(s, c);
    }
  }

  lemma ExclusiveKeeps(w: World, v: World, c: Cpu)
    requires Good(w) && ExclusiveStep(w, v, c)
    ensures Good(v)
  {
    hide Inv, HistoryOk, KindOk, Marked, Together, ThreadStep;
    assert Next(w.ex, v.ex);
    NextKeeps(w.ex, v.ex);
    StepKeys(w.ex, v.ex, c);
    assert CpuOk(w, c);
    forall d | d in w.queues ensures Together(v.queues[d].pc, v.ex.thr[d]) {
      assert CpuOk(w, d);
      StepTogether(w.ex, v.ex, c, d, w.queues[d].pc);
    }
    assert v.queues == w.queues[c := w.queues[c]];
    PlaceKeeps(w, v, c);
  }

  lemma EmptyOk(items: map<ItemId, Item>, c: Cpu)
    ensures HistoryOk(EMPTY) && KindOk(EMPTY, items, c) && Together(EMPTY.pc, NEWCPU) && Marked(EMPTY, items)
  {
  }

  lemma Joined(s: State, t: State, c: Cpu)
    requires ListStep(s, t, c) && c !in s.thr
    ensures t.thr == s.thr[c := NEWCPU]
  {
  }

  lemma JoinKeeps(w: World, v: World, c: Cpu)
    requires Good(w) && JoinStep(w, v, c)
    ensures Good(v)
  {
    hide Inv, ListStep, HistoryOk, KindOk, Marked, Together;
    Joined(w.ex, v.ex, c);
    ListKeeps(w.ex, v.ex, c);
    EmptyOk(w.items, c);
    forall d | d in v.queues ensures CpuOk(v, d) {
      assert d != c ==> CpuOk(w, d);
    }
    forall r ensures ReqOk(v, r) && SleepOk(v, r) {
      assert ReqOk(w, r) && SleepOk(w, r);
    }
  }

  lemma StepKeeps(w: World, v: World)
    requires Good(w) && Step(w, v)
    ensures Good(v)
  {
    hide Good, Enqueue, RequestStep, BigStep, ProcessStep, CallStep, ExclusiveStep, JoinStep;
    if c, i, exclusive :| Enqueue(w, v, c, i, exclusive, false) {
      EnqueueKeeps(w, v, c, i, exclusive, false);
    } else if r, c, i :| RequestStep(w, v, r, c, i) {
      RequestKeeps(w, v, r, c, i);
    } else if h :| BigStep(w, v, h) {
      BigKeeps(w, v, h);
    } else {
      var c :| ProcessStep(w, v, c) || CallStep(w, v, c) || ExclusiveStep(w, v, c) || JoinStep(w, v, c);
      if ProcessStep(w, v, c) {
        ProcessKeeps(w, v, c);
      } else if CallStep(w, v, c) {
        CallKeeps(w, v, c);
      } else if ExclusiveStep(w, v, c) {
        ExclusiveKeeps(w, v, c);
      } else {
        JoinKeeps(w, v, c);
      }
    }
  }

  lemma {:induction false} TraceGood(r: seq<World>, k: nat)
    requires Trace(r) && k < |r|
    ensures Good(r[k])
  {
    if k == 0 {
      BeginGood(r[0]);
    } else {
      TraceGood(r, k - 1);
      assert Step(r[k - 1], r[k - 1 + 1]);
      StepKeeps(r[k - 1], r[k]);
    }
  }

  // ---------------------------------------------------------------------------
  // What every run gives.

  /** Items are taken in the order they were put in, and what was run is what was
      taken, in that order and without repetition, but for an item still in hand. */
  lemma FifoAndOnce(r: seq<World>, k: nat, c: Cpu)
    requires Trace(r) && k < |r| && c in r[k].queues
    ensures var q := r[k].queues[c]; q.taken <= q.put && q.ran <= q.taken && |q.taken| <= |q.ran| + 1 && NoDup(q.ran)
  {
    TraceGood(r, k);
    var q := r[k].queues[c];
    assert CpuOk(r[k], c);
    forall a, b | 0 <= a < b < |q.ran| ensures q.ran[a] != q.ran[b] {
      assert q.put[a] != q.put[b];
    }
  }

  /** do_run_on_cpu returns only after the function ran, and by then neither a queue
      nor a worker knows the item, which lives on the caller's stack. */
  lemma SyncReturnsAfterRun(r: seq<World>, k: nat, q: nat, i: ItemId)
    requires Trace(r) && k < |r| && q in r[k].reqs && r[k].reqs[q] == Returned(i)
    ensures i in r[k].items && r[k].items[i].cpu in r[k].queues && i in r[k].queues[r[k].items[i].cpu].ran
    ensures forall c :: c in r[k].queues ==> i !in r[k].queues[c].list && !InHand(r[k].queues[c].pc, i)
  {
    hide Inv, HistoryOk, Together, Trace;
    TraceGood(r, k);
    var w := r[k];
    assert ReqOk(w, q);
    assert CpuOk(w, w.items[i].cpu);
    forall c | c in w.queues ensures i !in w.queues[c].list && !InHand(w.queues[c].pc, i) {
      assert CpuOk(w, c);
      NotQueued(w.queues[c], i);
    }
  }

  /** No wake-up is lost. Whoever sleeps in do_run_on_cpu waits for an item that is queued or
      in the hands of its CPU's worker, or is done, and then that worker has yet to
      broadcast; the broadcast reaches every sleeper. */
  lemma NoWakeUpLost(r: seq<World>, k: nat, q: nat, i: ItemId)
    requires Trace(r) && k < |r| && q in r[k].reqs && r[k].reqs[q] == Asleep(i)
    ensures i in r[k].items && r[k].items[i].cpu in r[k].queues
    ensures var p := r[k].queues[r[k].items[i].cpu];
            if r[k].items[i].done then !p.pc.Idle? else i in p.list || InHand(p.pc, i)
    ensures forall v :: ProcessStep(r[k], v, r[k].items[i].cpu) && r[k].queues[r[k].items[i].cpu].pc.Wake? ==>
              q in v.reqs && v.reqs[q] == Woken(i)
  {
    hide Inv, HistoryOk, KindOk, Marked, Together, Trace, Process;
    TraceGood(r, k);
    assert ReqOk(r[k], q) && SleepOk(r[k], q);
    assert CpuOk(r[k], r[k].items[i].cpu);
    if !r[k].items[i].done {
      StillAhead(r[k].queues[r[k].items[i].cpu], r[k].items, i);
    }
  }

  lemma StillAhead(q: Queue, items: map<ItemId, Item>, i: ItemId)
    requires HistoryOk(q) && Marked(q, items) && i in q.put && i in items && items[i].sync && !items[i].done
    ensures i in q.list || InHand(q.pc, i)
  {
  }

  lemma NotQueued(q: Queue, i: ItemId)
    requires HistoryOk(q) && (i in q.ran || i !in q.put)
    ensures i !in q.list
  {
    forall b | 0 <= b < |q.list| ensures q.list[b] != i {
      assert q.put[|q.taken| + b] == q.list[b];
      if i in q.ran {
        var a :| 0 <= a < |q.ran| && q.ran[a] == i;
        assert q.put[a] == i;
      }
    }
  }

  /** An item marked exclusive is run only inside an exclusive section: no CPU is in
      guest code and nobody else is in such a section. */
  lemma ExclusiveItemsRunAlone(r: seq<World>, k: nat, c: Cpu, i: ItemId, d: Cpu)
    requires Trace(r) && k + 1 < |r| && c in r[k].queues && c in r[k + 1].queues && d in r[k].ex.thr
    requires r[k + 1].queues[c].ran == r[k].queues[c].ran + [i] && ProcessStep(r[k], r[k + 1], c)
    ensures i in r[k].items && c in r[k].ex.thr
    ensures r[k].items[i].exclusive ==>
              && Inside(r[k].ex.thr[c]) && r[k].ex.thr[d].pc != Exec
              && (d != c ==> !Inside(r[k].ex.thr[d]))
  {
    TraceGood(r, k);
    var w := r[k];
    assert CpuOk(w, c);
    var q := w.queues[c];
    ProcessHistory(q, w.items, w.ex.thr[c], r[k + 1].queues[c], r[k + 1].items);
    assert |r[k + 1].queues[c].ran| == |q.ran| + 1;
    assert r[k + 1].queues[c].ran[|q.ran|] == i;
    assert InHand(q.pc, i);
    if w.items[i].exclusive {
      InsideIsAlone(w.ex, c, d);
    }
  }
}
