/** Jobs and job transactions: the tables, the records, what holds whenever the
    job lock is released, and what other threads may do while it is. */
module Jobs {
  import opened Options
  import opened Numbers
  import opened Seqs

  type JobId = nat
  type TxnId = nat

  datatype Status =
    Undefined | Created | Running | Paused | Ready | Standby | Waiting | Pending | Aborting | Concluded | Null

  /** JobSTT. */
  predicate Stt(a: Status, b: Status) {
    match a
    case Undefined => b == Created
    case Created => b in {Running, Aborting, Null}
    case Running => b in {Paused, Ready, Waiting, Aborting}
    case Paused => b == Running
    case Ready => b in {Standby, Waiting, Aborting}
    case Standby => b == Ready
    case Waiting => b in {Pending, Aborting}
    case Pending => b in {Aborting, Concluded}
    case Aborting => b in {Aborting, Concluded}
    case Concluded => b == Null
    case Null => false
  }

  datatype Verb = CancelVerb | PauseVerb | ResumeVerb | ChangeVerb | FinalizeVerb | DismissVerb

  /** JobVerbTable, for the verbs modelled. */
  predicate Accepts(v: Verb, s: Status) {
    match v
    case CancelVerb => s in {Created, Running, Paused, Ready, Standby, Waiting, Pending}
    case PauseVerb => s in {Created, Running, Paused, Ready, Standby}
    case ResumeVerb => s in {Created, Running, Paused, Ready, Standby}
    case ChangeVerb => s in {Created, Running, Paused, Ready, Standby}
    case FinalizeVerb => s == Pending
    case DismissVerb => s == Concluded
  }

  /** job_is_completed_locked. */
  predicate Completed(s: Status) {
    s in {Waiting, Pending, Aborting, Concluded, Null}
  }

  /** Where a job's coroutine stands: not created, in the driver's code, in the
      driver's pause callback, yielded at a pause point, in the resume callback, or
      finished. */
  datatype Co = NoCo | Body | PauseCb | AtPause(saved: Status) | ResumeCb | Ended

  /** How a driver answers a request to cancel: it has no callback and so is cancelled by
      force, it has one that always turns the request into a forced one (backup), one that
      does so unless the job is ready (mirror and active commit), or one of another kind. */
  datatype CancelRule = NoCancel | AlwaysForce | SoftWhenReady | OtherCancel

  /** How guest writes reach the target of a mirror job: its coroutine copies them later, or
      the writer itself does, at once. Other jobs have no such mode. */
  datatype CopyMode = NoMode | Background | WriteBlocking

  /** What the creator and the driver fix. Block jobs, and only they, have the user_resume
      callback and an I/O status; `mode` is the copy mode at the start. */
  datatype Config = Config(
    autoFinalize: bool, autoDismiss: bool, cancel: CancelRule, hasPrepare: bool, hasUserResume: bool,
    mode: CopyMode)

  /** What becomes of guest writes: the copy mode is write-blocking, and the filter above the
      source knows the job. */
  datatype Guest = Guest(blocking: bool, attached: bool)

  datatype Job = Job(
    status: Status, ret: int, cancelled: bool, force: bool,
    deferred: bool, busy: bool, paused: bool,
    pauseCount: int, userPaused: bool, ioError: bool,
    co: Co, txn: Option<TxnId>, refcnt: int, cfg: Config,
    drains: nat,                  // drained sections begun and not ended
    inFlight: nat,                // error actions that have paused and not yet made it the user's
    leaks: nat,                   // pauses that nobody will take back
    late: bool,                   // a user pause was taken back while the job was not silent
    guest: Guest)

  /** `busy` marks a transaction that is being finalised; the program has no such flag. */
  datatype Txn = Txn(aborting: bool, jobs: seq<JobId>, refcnt: int, busy: bool)

  /** How a job's finalisation went. */
  datatype End = Committed | Aborted

  /** All jobs and transactions, and for every job ever created how it ended. */
  datatype World = World(jobs: map<JobId, Job>, txns: map<TxnId, Txn>, ends: map<JobId, seq<End>>)

  /** References beyond the one that lasts until the job is dismissed. */
  function Held(b: Job): int {
    b.refcnt - One(b.status != Null)
  }

  // ---------------------------------------------------------------------------
  // What holds whenever the lock is free.

  predicate CoOk(b: Job) {
    match b.co
    case NoCo => b.status in {Created, Aborting, Null} && (b.status == Created ==> b.paused && !b.deferred)
    case AtPause(s) =>
      s in {Running, Ready} && b.status == (if s == Ready then Standby else Paused) && b.paused && !b.deferred
    case Ended => b.deferred && !b.paused && (b.status in {Running, Ready} || Completed(b.status))
    case _ => b.status in {Running, Ready} && !b.deferred && !b.paused && (b.co != Body ==> b.busy)
  }

  /** The job's coroutine does nothing until the job core wakes it. */
  predicate AtRest(b: Job) {
    b.co in {NoCo, Ended} || (b.co.AtPause? && !b.busy)
  }

  predicate Parked(b: Job) {
    b.inFlight == 0 && AtRest(b)
  }

  /** Guest writes are copied to the target by the writers, paused job or not. */
  predicate Copying(b: Job) {
    b.guest == Guest(true, true)
  }

  /** Nobody can report an I/O error on the job's behalf. */
  predicate Silent(b: Job) {
    Parked(b) && !Copying(b)
  }

  /** An I/O error is on record only while the job is paused by its user: what the
      assertion in block_job_iostatus_reset_locked asks for. */
  predicate IoOk(b: Job) {
    b.ioError ==> b.userPaused
  }

  /** What the pause count should be. */
  predicate PauseExact(b: Job) {
    b.pauseCount == One(b.co == NoCo) + One(b.userPaused) + b.drains
  }

  /** Pause conservation: every pause has somebody who will take it back, but for those in
      flight and those leaked. */
  predicate PauseOk(b: Job) {
    b.pauseCount == One(b.co == NoCo) + One(b.userPaused) + b.drains + b.inFlight + b.leaks
  }

  predicate JobOk(b: Job) {
    && CoOk(b) && PauseOk(b) && (b.force ==> b.cancelled)
    && (IoOk(b) || b.late) && (b.ioError ==> b.cfg.hasUserResume)
    && (b.ret != 0 ==> b.co == Ended || b.status in {Aborting, Null})
    && (b.status in {Waiting, Pending} ==> b.ret == 0 && b.co == Ended)
    && (b.status == Aborting ==> b.ret != 0)
    && (b.txn == None <==> b.status in {Concluded, Null})
    && b.refcnt >= One(b.status != Null)
    && (b.guest.attached ==> b.co !in {NoCo, Ended}) && (b.guest.attached || b.guest.blocking ==> b.cfg.mode != NoMode)
  }

  /** A job stands in the list of its transaction, and has not been finalised. */
  predicate JobIn(w: World, j: JobId)
    requires j in w.jobs
  {
    && j in w.ends
    && (w.jobs[j].txn.Some? ==>
         w.ends[j] == [] && w.jobs[j].txn.value in w.txns && j in w.txns[w.jobs[j].txn.value].jobs)
  }

  predicate TxnIn(w: World, t: TxnId)
    requires t in w.txns
  {
    && NoDup(w.txns[t].jobs) && w.txns[t].refcnt >= |w.txns[t].jobs| && w.txns[t].refcnt > 0
    && forall j :: j in w.txns[t].jobs ==> j in w.jobs && w.jobs[j].txn == Some(t)
  }

  predicate Linked(w: World) {
    && (forall j :: j in w.jobs ==> JobOk(w.jobs[j]) && JobIn(w, j))
    && (forall t :: t in w.txns ==> TxnIn(w, t))
    && (forall j :: j in w.ends ==> |w.ends[j]| <= 1)
  }

  /** In a transaction nobody finalises: completed jobs succeeded and wait. */
  predicate Calm(b: Job) {
    Completed(b.status) ==> b.status in {Waiting, Pending} && !b.force
  }

  /** In one being committed: ready to commit. */
  predicate Ripe(b: Job) {
    b.status == Pending && b.ret == 0 && !b.force
  }

  /** In one being aborted: on its way out. */
  predicate Doomed(b: Job) {
    if Completed(b.status) then b.status in {Waiting, Pending, Aborting} else b.force
  }

  predicate Phase(w: World, t: TxnId)
    requires t in w.txns
  {
    var x := w.txns[t];
    && (x.busy && x.aborting ==> forall j :: j in x.jobs && j in w.jobs ==> Doomed(w.jobs[j]))
    && (x.busy && !x.aborting ==> forall j :: j in x.jobs && j in w.jobs ==> Ripe(w.jobs[j]))
    && (!x.busy ==>
          && (x.aborting ==> x.jobs == [])
          && (forall j :: j in x.jobs && j in w.jobs ==> Calm(w.jobs[j]))
          && (forall i, j :: i in x.jobs && j in x.jobs && i in w.jobs && j in w.jobs ==> InStep(w.jobs[i], w.jobs[j])))
  }

  /** Jobs become pending together. */
  predicate InStep(a: Job, b: Job) {
    a.status == Pending ==> b.status == Pending
  }

  predicate Ok(w: World) {
    Linked(w) && forall t :: t in w.txns ==> Phase(w, t)
  }

  // ---------------------------------------------------------------------------
  // What other threads may do meanwhile.

  /** A coroutine at rest stays there. */
  predicate Rests(a: Job, b: Job) {
    b.co == a.co && b.busy == a.busy && b.guest.attached == a.guest.attached
  }

  /** A silent job is left alone. */
  predicate Still(a: Job, b: Job) {
    && b.inFlight == a.inFlight && b.leaks == a.leaks
    && b.userPaused == a.userPaused && (b.ioError ==> a.ioError)
  }

  /** A job's own coroutine, an I/O thread on its behalf, or a guest write it copies. */
  predicate CoMove(a: Job, b: Job) {
    && JobOk(b)
    && b.txn == a.txn && b.cancelled == a.cancelled && b.force == a.force && b.refcnt == a.refcnt && b.cfg == a.cfg
    && b.drains == a.drains && (a.userPaused ==> b.userPaused) && (b.ioError ==> a.ioError || b.userPaused)
    && b.leaks >= a.leaks && b.late == a.late && b.guest.blocking == a.guest.blocking
    && (AtRest(a) ==> Rests(a, b)) && (Silent(a) ==> Still(a, b))
    && (if Completed(a.status) || a.co == NoCo
        then b.status == a.status && b.ret == a.ret && b.co == a.co && b.deferred == a.deferred
        else !Completed(b.status) && b.co != NoCo)
  }

  /** While a callback runs that does not run the main loop. */
  predicate CoWorld(w: World, v: World) {
    && v.txns == w.txns && v.ends == w.ends && v.jobs.Keys == w.jobs.Keys
    && forall j :: j in w.jobs && j in v.jobs ==> CoMove(w.jobs[j], v.jobs[j])
  }

  /** What befalls a job of a transaction that somebody else is finalising. */
  predicate BusyMove(a: Job, b: Job) {
    && b.txn == a.txn && b.cfg == a.cfg && b.refcnt == a.refcnt
    && (a.cancelled ==> b.cancelled) && (a.force ==> b.force)
    && (Completed(a.status) ==> b.status == a.status && b.ret == a.ret && b.force == a.force && b.co == a.co)
  }

  predicate BusySame(w: World, v: World, mine: Option<TxnId>) {
    && (forall t :: t in w.txns && w.txns[t].busy && mine != Some(t) ==>
          && t in v.txns && v.txns[t] == w.txns[t]
          && forall j :: j in w.txns[t].jobs ==> j in w.jobs && j in v.jobs && BusyMove(w.jobs[j], v.jobs[j]))
    && (forall t :: t in v.txns && v.txns[t].busy && mine != Some(t) ==> t in w.txns && w.txns[t].busy)
  }

  /** What a job never loses: its driver, pauses leaked, the mark of a late resume, and the
      write-blocking mode. */
  predicate Keeps(a: Job, b: Job) {
    b.cfg == a.cfg && b.leaks >= a.leaks && (a.late ==> b.late) && (a.guest.blocking ==> b.guest.blocking)
  }

  /** It keeps its references, stays completed, and does not change to another
      transaction. */
  predicate LaterJob(a: Job, b: Job) {
    && (Held(a) > 0 ==> Held(b) == Held(a)) && (Completed(a.status) ==> Completed(b.status))
    && (b.txn == a.txn || b.txn == None) && Keeps(a, b)
  }

  /** A job with references stays, an end is final, and numbers are not used twice. */
  predicate Later(w: World, v: World) {
    && (forall j :: j in w.jobs && Held(w.jobs[j]) > 0 ==> j in v.jobs)
    && (forall j :: j in w.jobs && j in v.jobs ==> LaterJob(w.jobs[j], v.jobs[j]))
    && (forall j :: j in w.ends ==> j in v.ends && (w.ends[j] != [] ==> v.ends[j] == w.ends[j]))
    && (forall j :: j in v.jobs && j in w.ends ==> j in w.jobs)
  }

  /** While a callback runs that may run the main loop: anything that keeps the
      invariant and leaves alone the transactions being finalised. */
  predicate PollWorld(w: World, v: World) {
    Ok(v) && Later(w, v) && BusySame(w, v, None)
  }

  lemma LaterTrans(u: World, v: World, w: World)
    requires Linked(u) && Linked(v) && Later(u, v) && Later(v, w)
    ensures Later(u, w)
  {
    hide JobOk;
    forall j | j in u.jobs && j in w.jobs ensures LaterJob(u.jobs[j], w.jobs[j]) {
      assert JobIn(u, j);
      assert j in v.jobs;
      LaterJobs(u.jobs[j], v.jobs[j], w.jobs[j]);
    }
    forall j | j in u.jobs && Held(u.jobs[j]) > 0 ensures j in w.jobs {
      assert LaterJob(u.jobs[j], v.jobs[j]);
    }
  }

  lemma LaterJobs(a: Job, b: Job, c: Job)
    requires LaterJob(a, b) && LaterJob(b, c)
    ensures LaterJob(a, c)
  {
  }

  /** Where no job changes, it is enough to keep the ends. */
  lemma SameJobsLater(w: World, v: World)
    requires v.jobs == w.jobs && v.ends == w.ends
    ensures Later(w, v)
  {
  }

  lemma BusyTrans(u: World, v: World, w: World, mine: Option<TxnId>)
    requires BusySame(u, v, mine) && BusySame(v, w, mine)
    ensures BusySame(u, w, mine)
  {
    forall t | t in u.txns && u.txns[t].busy && mine != Some(t)
      ensures t in w.txns && w.txns[t] == u.txns[t]
      ensures forall j :: j in u.txns[t].jobs ==> j in u.jobs && j in w.jobs && BusyMove(u.jobs[j], w.jobs[j])
    {
      assert v.txns[t].busy;
      forall j | j in u.txns[t].jobs ensures j in u.jobs && j in w.jobs && BusyMove(u.jobs[j], w.jobs[j]) {
        assert BusyMove(u.jobs[j], v.jobs[j]) && BusyMove(v.jobs[j], w.jobs[j]);
      }
    }
  }

  lemma BusyWeaker(w: World, v: World, mine: Option<TxnId>)
    requires BusySame(w, v, None)
    ensures BusySame(w, v, mine)
  {
  }

  /** The coroutine side keeps the invariant and disturbs nobody. */
  lemma CoKeepsLinked(w: World, v: World)
    requires Linked(w) && CoWorld(w, v)
    ensures Linked(v) && Later(w, v) && BusySame(w, v, None)
    ensures forall t :: t in w.txns && Phase(w, t) ==> Phase(v, t)
  {
    hide CoMove, StayMove, Linked, Later, BusySame, Phase;
    forall j | j in w.jobs ensures StayMove(w.jobs[j], v.jobs[j]) {
      CoIsStay(w.jobs[j], v.jobs[j]);
    }
    StayLinked(w, v);
    StayLater(w, v, None);
    forall t | t in w.txns && Phase(w, t) ensures Phase(v, t) {
      CoKeepsPhase(w, v, t);
    }
  }

  lemma CoKeepsPhase(w: World, v: World, t: TxnId)
    requires Linked(w) && CoWorld(w, v) && t in w.txns && Phase(w, t)
    ensures Phase(v, t)
  {
    hide CoMove, Phase;
    assert TxnIn(w, t);
    PhaseMoves(w, v, t);
  }

  lemma PhaseMoves(w: World, v: World, t: TxnId)
    requires t in w.txns && t in v.txns && Phase(w, t) && (forall j :: j in w.jobs ==> JobOk(w.jobs[j]))
    requires v.txns[t].aborting == w.txns[t].aborting && v.txns[t].busy == w.txns[t].busy
    requires forall j :: j in v.txns[t].jobs ==>
               j in w.txns[t].jobs && j in w.jobs && j in v.jobs && CoMove(w.jobs[j], v.jobs[j])
    ensures Phase(v, t)
  {
    forall j | j in v.txns[t].jobs
      ensures Completed(v.jobs[j].status) == Completed(w.jobs[j].status) && v.jobs[j].force == w.jobs[j].force
      ensures Completed(w.jobs[j].status) ==> v.jobs[j].status == w.jobs[j].status && v.jobs[j].ret == w.jobs[j].ret
    {
      assert CoMove(w.jobs[j], v.jobs[j]) && JobOk(w.jobs[j]);
    }
    hide CoMove, JobOk;
    assert v.txns[t].aborting && w.txns[t].jobs == [] ==> v.txns[t].jobs == [] by {
      assert v.txns[t].jobs != [] ==> v.txns[t].jobs[0] in w.txns[t].jobs;
    }
  }

  // ---------------------------------------------------------------------------
  // One job changes.

  function Put(w: World, j: JobId, b: Job): World {
    w.(jobs := w.jobs[j := b])
  }

  lemma PutPut(w: World, j: JobId, a: Job, b: Job)
    ensures Put(Put(w, j, a), j, b) == Put(w, j, b)
  {
    assert w.jobs[j := a][j := b] == w.jobs[j := b];
  }

  lemma PutSame(w: World, j: JobId)
    requires j in w.jobs
    ensures Put(w, j, w.jobs[j]) == w
  {
    assert w.jobs[j := w.jobs[j]] == w.jobs;
  }

  lemma PutLinked(w: World, j: JobId, b: Job)
    requires Linked(w) && j in w.jobs && JobOk(b) && b.txn == w.jobs[j].txn
    ensures Linked(Put(w, j, b))
  {
    var v := Put(w, j, b);
    forall i | i in v.jobs ensures JobOk(v.jobs[i]) && JobIn(v, i) {
      assert JobIn(w, i);
    }
    forall t | t in v.txns ensures TxnIn(v, t) {
      assert TxnIn(w, t);
    }
  }

  lemma PutPhase(w: World, j: JobId, b: Job, t: TxnId)
    requires Linked(w) && j in w.jobs && t in w.txns && Phase(w, t)
    requires w.jobs[j].txn != Some(t)
               || (b.status == w.jobs[j].status && b.ret == w.jobs[j].ret && b.force == w.jobs[j].force)
    ensures Phase(Put(w, j, b), t)
  {
    assert TxnIn(w, t);
  }

  lemma PutBusy(w: World, j: JobId, b: Job, mine: Option<TxnId>)
    requires Linked(w) && j in w.jobs
    requires (BusyMove(w.jobs[j], b) || (mine.Some? && w.jobs[j].txn == mine) || w.jobs[j].txn == None)
    ensures BusySame(w, Put(w, j, b), mine)
  {
    forall t | t in w.txns ensures TxnIn(w, t) {
    }
    assert BusyMove(w.jobs[j], w.jobs[j]);
  }

  lemma PutLater(w: World, j: JobId, b: Job)
    requires j in w.jobs && (Held(w.jobs[j]) > 0 ==> Held(b) == Held(w.jobs[j]))
    requires Completed(w.jobs[j].status) ==> Completed(b.status)
    requires (b.txn == w.jobs[j].txn || b.txn == None) && Keeps(w.jobs[j], b)
    ensures Later(w, Put(w, j, b))
  {
  }

  /** Changes that touch neither status, result, cancellation nor references. */
  predicate SameView(a: Job, b: Job) {
    && b.status == a.status && b.ret == a.ret && b.cancelled == a.cancelled && b.force == a.force
    && b.txn == a.txn && b.refcnt == a.refcnt && Keeps(a, b) && (Completed(a.status) ==> b.co == a.co)
  }

  lemma PutSameView(w: World, j: JobId, b: Job)
    requires Ok(w) && j in w.jobs && JobOk(b) && SameView(w.jobs[j], b)
    ensures PollWorld(w, Put(w, j, b))
  {
    hide Linked, Phase, Later, BusySame, JobOk;
    PutLinked(w, j, b);
    PutLater(w, j, b);
    PutBusy(w, j, b, None);
    forall t | t in w.txns ensures Phase(Put(w, j, b), t) {
      PutPhase(w, j, b, t);
    }
  }

  // ---------------------------------------------------------------------------
  // A reference is dropped, a job leaves its transaction.

  /** `v` is `w` with one reference to `j` less; the last one takes the job along, and
      other threads may have run while it was freed. */
  ghost predicate Unreffed(w: World, v: World, j: JobId)
    requires j in w.jobs
  {
    && v.txns == w.txns && v.ends == w.ends
    && v.jobs.Keys == (if w.jobs[j].refcnt == 1 then w.jobs.Keys - {j} else w.jobs.Keys)
    && (forall i :: i in v.jobs && i != j ==> CoMove(w.jobs[i], v.jobs[i]))
    && (w.jobs[j].refcnt != 1 ==> v == Put(w, j, w.jobs[j].(refcnt := w.jobs[j].refcnt - 1)))
  }

  lemma CoMoveSelf(b: Job)
    requires JobOk(b)
    ensures CoMove(b, b)
  {
  }

  lemma UnreffedLinked(w: World, v: World, j: JobId)
    requires Linked(w) && j in w.jobs && Unreffed(w, v, j)
    requires w.jobs[j].refcnt > One(w.jobs[j].status != Null)
    ensures Linked(v)
  {
    forall i | i in v.jobs ensures JobOk(v.jobs[i]) && JobIn(v, i) {
      assert JobIn(w, i) && JobOk(w.jobs[i]);
    }
    forall t | t in v.txns ensures TxnIn(v, t) {
      assert TxnIn(w, t);
      forall i | i in v.txns[t].jobs ensures i in v.jobs && v.jobs[i].txn == Some(t) {
        assert JobOk(w.jobs[i]);
      }
    }
  }

  /** job_txn_del_job_locked, on the transactions. */
  function DelTxn(txns: map<TxnId, Txn>, t: TxnId, j: JobId): map<TxnId, Txn>
    requires t in txns && NoDup(txns[t].jobs)
  {
    var x := txns[t];
    if x.refcnt == 1 then txns - {t} else txns[t := x.(jobs := Remove(x.jobs, j), refcnt := x.refcnt - 1)]
  }

  /** A dismissed job, before its reference is dropped. */
  function Dismissal(b: Job): Job {
    b.(busy := false, paused := false, deferred := true, txn := None, status := Null)
  }

  /** `j` left its transaction with job `b` in its place. */
  function Left(w: World, j: JobId, b: Job, ends: map<JobId, seq<End>>): World
    requires j in w.jobs && w.jobs[j].txn.Some? && w.jobs[j].txn.value in w.txns
    requires NoDup(w.txns[w.jobs[j].txn.value].jobs)
  {
    World(w.jobs[j := b], DelTxn(w.txns, w.jobs[j].txn.value, j), ends)
  }

  lemma LeftLinked(w: World, j: JobId, b: Job, e: seq<End>)
    requires Linked(w) && j in w.jobs && w.jobs[j].txn.Some? && JobIn(w, j)
    requires JobOk(b) && b.txn == None && |e| <= 1
    requires NoDup(w.txns[w.jobs[j].txn.value].jobs)
    ensures Linked(Left(w, j, b, w.ends[j := e]))
  {
    var v := Left(w, j, b, w.ends[j := e]);
    var t := w.jobs[j].txn.value;
    assert TxnIn(w, t);
    assert w.txns[t].refcnt == 1 ==> w.txns[t].jobs == [j] by {
      assert |w.txns[t].jobs| <= 1 ==> w.txns[t].jobs == [w.txns[t].jobs[0]];
    }
    forall i | i in v.jobs ensures JobOk(v.jobs[i]) && JobIn(v, i) {
      assert JobIn(w, i);
    }
    forall u | u in v.txns ensures TxnIn(v, u) {
      assert TxnIn(w, u);
    }
  }

  /** `j` was finalised with outcome `e` and left its transaction. */
  ghost predicate Retired(w: World, v: World, j: JobId, e: End)
    requires j in w.jobs && w.jobs[j].txn.Some? && w.jobs[j].txn.value in w.txns
    requires NoDup(w.txns[w.jobs[j].txn.value].jobs)
  {
    && v.ends == w.ends[j := [e]] && v.txns == DelTxn(w.txns, w.jobs[j].txn.value, j)
    && w.jobs.Keys - {j} <= v.jobs.Keys <= w.jobs.Keys
    && (forall i :: i in v.jobs && i != j ==> CoMove(w.jobs[i], v.jobs[i]))
    && (j in v.jobs ==> v.jobs[j].txn == None && Completed(v.jobs[j].status) && Held(v.jobs[j]) == Held(w.jobs[j]))
    && (j in v.jobs ==> Keeps(w.jobs[j], v.jobs[j]))
    && (Held(w.jobs[j]) > 0 ==> j in v.jobs)
  }

  lemma RetiredOk(w: World, v: World, j: JobId, e: End, t: TxnId)
    requires Ok(w) && j in w.jobs && w.jobs[j].txn == Some(t) && t in w.txns && NoDup(w.txns[t].jobs)
    requires Retired(w, v, j, e) && Linked(v)
    ensures Ok(v)
  {
    hide CoMove, Phase, JobOk;
    forall u | u in v.txns ensures Phase(v, u) {
      assert TxnIn(w, u) && TxnIn(v, u);
      PhaseMoves(w, v, u);
    }
  }

  lemma RetiredBusy(w: World, v: World, j: JobId, e: End, t: TxnId)
    requires Linked(w) && j in w.jobs && w.jobs[j].txn == Some(t) && t in w.txns && NoDup(w.txns[t].jobs)
    requires Retired(w, v, j, e)
    ensures BusySame(w, v, Some(t))
  {
    forall i | i in v.jobs && i != j ensures BusyMove(w.jobs[i], v.jobs[i]) {
      assert CoMove(w.jobs[i], v.jobs[i]) && JobOk(w.jobs[i]);
    }
    forall u | u in w.txns ensures TxnIn(w, u) {
    }
  }

  lemma RetiredLater(w: World, v: World, j: JobId, e: End, t: TxnId)
    requires Linked(w) && j in w.jobs && w.jobs[j].txn == Some(t) && t in w.txns && NoDup(w.txns[t].jobs)
    requires Retired(w, v, j, e)
    ensures Later(w, v)
    ensures forall i :: i in w.txns[t].jobs && i != j ==> i in w.jobs && i in v.jobs && BusyMove(w.jobs[i], v.jobs[i])
  {
    assert TxnIn(w, t) && JobIn(w, j);
    forall i | i in v.jobs && i != j
      ensures Held(v.jobs[i]) == Held(w.jobs[i]) && (Completed(w.jobs[i].status) ==> Completed(v.jobs[i].status))
      ensures BusyMove(w.jobs[i], v.jobs[i]) && v.jobs[i].txn == w.jobs[i].txn && Keeps(w.jobs[i], v.jobs[i])
    {
      assert CoMove(w.jobs[i], v.jobs[i]) && JobOk(w.jobs[i]);
    }
  }

  // ---------------------------------------------------------------------------
  // A reference is held around other work.

  lemma CoMoveHeld(a: Job, b: Job)
    requires JobOk(a) && CoMove(a, b)
    ensures Held(b) == Held(a) && Completed(b.status) == Completed(a.status) && BusyMove(a, b) && b.txn == a.txn
    ensures Keeps(a, b)
  {
  }

  lemma UnreffedJobs(w: World, v: World, j: JobId)
    requires Linked(w) && j in w.jobs && Unreffed(w, v, j)
    ensures forall i :: i in w.jobs && i != j ==> i in v.jobs && Held(v.jobs[i]) == Held(w.jobs[i])
    ensures forall i :: i in v.jobs && i in w.jobs && Completed(w.jobs[i].status) ==> Completed(v.jobs[i].status)
    ensures forall i :: i in v.jobs && i in w.jobs ==> v.jobs[i].txn == w.jobs[i].txn && Keeps(w.jobs[i], v.jobs[i])
    ensures forall i :: i in v.jobs && i != j ==> i in w.jobs && BusyMove(w.jobs[i], v.jobs[i])
  {
    hide CoMove, BusyMove, JobOk, Held, Completed;
    forall i | i in v.jobs && i != j
      ensures v.jobs[i].txn == w.jobs[i].txn && Completed(v.jobs[i].status) == Completed(w.jobs[i].status)
      ensures Keeps(w.jobs[i], v.jobs[i])
      ensures BusyMove(w.jobs[i], v.jobs[i]) && Held(v.jobs[i]) == Held(w.jobs[i])
    {
      assert JobOk(w.jobs[i]);
      CoMoveHeld(w.jobs[i], v.jobs[i]);
    }
  }

  lemma UnreffedBusy(w: World, v: World, j: JobId, mine: Option<TxnId>)
    requires Linked(w) && j in w.jobs && Unreffed(w, v, j) && (w.jobs[j].txn == None || w.jobs[j].txn == mine)
    ensures BusySame(w, v, mine)
  {
    hide CoMove, BusyMove, JobOk, Held;
    UnreffedJobs(w, v, j);
    forall t | t in w.txns && w.txns[t].busy && mine != Some(t)
      ensures forall i :: i in w.txns[t].jobs ==> i in w.jobs && i in v.jobs && BusyMove(w.jobs[i], v.jobs[i])
    {
      assert TxnIn(w, t);
    }
  }

  lemma NullHasNoTxn(w: World, j: JobId)
    requires Linked(w) && j in w.jobs
    ensures w.jobs[j].status == Null ==> w.jobs[j].txn == None
  {
    assert JobOk(w.jobs[j]);
  }

  lemma UnreffedPhases(w: World, v: World, j: JobId)
    requires Ok(w) && j in w.jobs && Unreffed(w, v, j) && Linked(v) && w.jobs[j].refcnt > One(w.jobs[j].status != Null)
    ensures Ok(v)
  {
    hide CoMove, Phase, JobOk;
    NullHasNoTxn(w, j);
    forall u | u in v.txns ensures Phase(v, u) {
      if w.jobs[j].refcnt != 1 {
        PutPhase(w, j, w.jobs[j].(refcnt := w.jobs[j].refcnt - 1), u);
      } else {
        assert TxnIn(w, u) && TxnIn(v, u);
        PhaseMoves(w, v, u);
      }
    }
  }

  /** Reference taken, work done, reference dropped. */
  lemma Bracket(w: World, w1: World, w2: World, v: World, j: JobId, mine: Option<TxnId>)
    requires Linked(w) && j in w.jobs && (w.jobs[j].txn == None || w.jobs[j].txn == mine)
    requires w1 == Put(w, j, w.jobs[j].(refcnt := w.jobs[j].refcnt + 1)) && Linked(w1)
    requires Linked(w2) && Later(w1, w2) && BusySame(w1, w2, mine) && j in w2.jobs
    requires w2.jobs[j].txn == None || w2.jobs[j].txn == mine
    requires Unreffed(w2, v, j)
    ensures Later(w, v) && BusySame(w, v, mine)
  {
    hide BusySame, CoMove, BusyMove, Unreffed, Later;
    assert JobOk(w.jobs[j]);
    UnreffedBusy(w2, v, j, mine);
    RefBusy(w, j, mine);
    BusyTrans(w, w1, w2, mine);
    BusyTrans(w, w2, v, mine);
    BracketLater(w, w1, w2, v, j);
  }

  lemma RefBusy(w: World, j: JobId, mine: Option<TxnId>)
    requires Linked(w) && j in w.jobs && (w.jobs[j].txn == None || w.jobs[j].txn == mine)
    ensures BusySame(w, Put(w, j, w.jobs[j].(refcnt := w.jobs[j].refcnt + 1)), mine)
  {
    PutBusy(w, j, w.jobs[j].(refcnt := w.jobs[j].refcnt + 1), mine);
  }

  lemma BracketLater(w: World, w1: World, w2: World, v: World, j: JobId)
    requires j in w.jobs && w.jobs[j].refcnt >= One(w.jobs[j].status != Null)
    requires w1 == Put(w, j, w.jobs[j].(refcnt := w.jobs[j].refcnt + 1))
    requires Linked(w2) && Later(w1, w2) && j in w2.jobs && Unreffed(w2, v, j)
    ensures Later(w, v)
  {
    hide CoMove, JobOk, LaterJob, Linked, Held;
    UnreffedLater(w2, v, j);
    BracketJob(w.jobs[j], w2.jobs[j]);
    forall i | i in w.jobs && i in v.jobs ensures LaterJob(w.jobs[i], v.jobs[i]) {
      if i != j {
        LaterJobs(w.jobs[i], w2.jobs[i], v.jobs[i]);
      }
    }
    forall i | i in w.jobs && Held(w.jobs[i]) > 0 ensures i in v.jobs {
      assert i in w1.jobs && (i != j ==> w1.jobs[i] == w.jobs[i]);
    }
    forall i | i in v.jobs && i in w.ends ensures i in w.jobs {
      assert i in w2.jobs && i in w1.ends;
    }
  }

  /** A job whose extra reference was taken, kept and dropped. */
  lemma BracketJob(a: Job, b: Job)
    requires a.refcnt >= One(a.status != Null) && LaterJob(a.(refcnt := a.refcnt + 1), b)
    ensures Held(a) > 0 ==> b.refcnt != 1
    ensures b.refcnt != 1 ==> LaterJob(a, b.(refcnt := b.refcnt - 1))
  {
  }

  lemma UnreffedLater(w: World, v: World, j: JobId)
    requires Linked(w) && j in w.jobs && Unreffed(w, v, j)
    ensures forall i :: i in v.jobs && i != j ==> i in w.jobs && LaterJob(w.jobs[i], v.jobs[i])
  {
    hide CoMove, JobOk;
    UnreffedJobs(w, v, j);
  }

  // ---------------------------------------------------------------------------
  // Cancellation.

  lemma CoMoves(a: Job, b: Job, c: Job)
    requires CoMove(a, b) && CoMove(b, c)
    ensures CoMove(a, c)
  {
  }

  /** Like a coroutine move, but the job may be cancelled and its user pause lifted. */
  predicate StayMove(a: Job, b: Job) {
    && JobOk(b)
    && b.txn == a.txn && b.refcnt == a.refcnt && b.cfg == a.cfg && b.drains == a.drains
    && (a.cancelled ==> b.cancelled) && (a.force ==> b.force)
    && b.leaks >= a.leaks && (a.late ==> b.late) && b.guest.blocking == a.guest.blocking
    && (if Completed(a.status) || a.co == NoCo
        then b.status == a.status && b.ret == a.ret && b.co == a.co && b.deferred == a.deferred
        else !Completed(b.status) && b.co != NoCo)
  }

  /** What job_cancel_async_locked does to its job; `eff` is the force that took effect.
      A user pause is over, and a soft request to a job that is done is ignored. */
  predicate CancelMove(a: Job, b: Job, eff: bool) {
    && StayMove(a, b) && !b.userPaused && (Silent(a) ==> b.late == a.late && b.leaks == a.leaks)
    && b.cancelled == (a.cancelled || eff || !b.deferred) && b.force == (a.force || eff)
  }

  lemma StayMoves(a: Job, b: Job, c: Job)
    requires StayMove(a, b) && (StayMove(b, c) || CoMove(b, c))
    ensures StayMove(a, c)
  {
  }

  lemma CoIsStay(a: Job, b: Job)
    requires CoMove(a, b)
    ensures StayMove(a, b)
  {
  }

  /** The world after `j` alone was cancelled. */
  ghost predicate CancelWorld(w: World, v: World, j: JobId, eff: bool) {
    && v.txns == w.txns && v.ends == w.ends && v.jobs.Keys == w.jobs.Keys
    && (forall i :: i in w.jobs && i != j ==> CoMove(w.jobs[i], v.jobs[i]))
    && (j in w.jobs ==> CancelMove(w.jobs[j], v.jobs[j], eff))
  }

  /** Jobs stay where they are, whatever else happens to them. */
  ghost predicate StayWorld(w: World, v: World) {
    && v.txns == w.txns && v.ends == w.ends && v.jobs.Keys == w.jobs.Keys
    && (forall i :: i in w.jobs ==> StayMove(w.jobs[i], v.jobs[i]))
  }

  lemma StayLinked(w: World, v: World)
    requires Linked(w) && StayWorld(w, v)
    ensures Linked(v)
  {
    forall j | j in v.jobs ensures JobOk(v.jobs[j]) && JobIn(v, j) {
      assert StayMove(w.jobs[j], v.jobs[j]) && JobIn(w, j);
    }
    forall t | t in v.txns ensures TxnIn(v, t) {
      assert TxnIn(w, t);
      forall j | j in v.txns[t].jobs ensures j in v.jobs && v.jobs[j].txn == Some(t) {
        assert StayMove(w.jobs[j], v.jobs[j]);
      }
    }
  }

  lemma StayMoveHeld(a: Job, b: Job)
    requires JobOk(a) && StayMove(a, b)
    ensures Held(b) == Held(a) && Completed(b.status) == Completed(a.status) && b.txn == a.txn && Keeps(a, b)
  {
  }

  lemma StayLater(w: World, v: World, mine: Option<TxnId>)
    requires Linked(w) && StayWorld(w, v)
    requires forall j :: j in w.jobs && (mine == None || w.jobs[j].txn != mine) ==> CoMove(w.jobs[j], v.jobs[j])
    ensures Later(w, v) && BusySame(w, v, mine)
  {
    hide StayMove, BusyMove, CoMove, JobOk, Held, Completed;
    forall j | j in w.jobs
      ensures Held(v.jobs[j]) == Held(w.jobs[j]) && Completed(v.jobs[j].status) == Completed(w.jobs[j].status)
      ensures v.jobs[j].txn == w.jobs[j].txn && Keeps(w.jobs[j], v.jobs[j])
      ensures mine == None || w.jobs[j].txn != mine ==> BusyMove(w.jobs[j], v.jobs[j])
    {
      assert JobOk(w.jobs[j]);
      StayMoveHeld(w.jobs[j], v.jobs[j]);
      if mine == None || w.jobs[j].txn != mine {
        CoMoveHeld(w.jobs[j], v.jobs[j]);
      }
    }
    forall t | t in w.txns ensures TxnIn(w, t) {
    }
  }

  /** job_user_resume_locked and job_cancel_async_locked take a user pause back. */
  function Lift(b: Job, silent: bool): Job {
    b.(userPaused := false, pauseCount := b.pauseCount - 1, late := b.late || !silent)
  }

  /** What block_job_user_resume may turn a job into: others act, the I/O status is reset,
      others act again. */
  ghost predicate Called(a: Job, c: Job) {
    exists b :: CoMove(a, b) && b.userPaused && CoMove(b.(ioError := false), c)
  }

  /** What becomes of a job whose user pause is taken back, callback included. */
  ghost predicate Resumes(a: Job, z: Job) {
    exists c :: (if a.cfg.hasUserResume then Called(a, c) else c == a) && z == Lift(c, Silent(a))
  }

  function Flagged(b: Job, eff: bool): Job {
    if eff || !b.deferred then b.(cancelled := true, force := b.force || eff) else b
  }

  /** What becomes of a job in job_cancel_async_locked. */
  ghost predicate Cancels(a: Job, z: Job, eff: bool) {
    exists b, c :: (if a.cfg.cancel == NoCancel then b == a else CoMove(a, b))
                   && (if b.userPaused then Resumes(b, c) else c == b) && z == Flagged(c, eff)
  }

  lemma CalledMove(a: Job, b: Job, c: Job)
    requires CoMove(a, b) && a.userPaused && CoMove(b.(ioError := false), c)
    ensures CoMove(a, c) && c.userPaused && Called(a, c) && (Silent(a) ==> !c.ioError)
  {
  }

  /** Taking a user pause back, with or without the callback before it. */
  lemma LiftMoves(a: Job, b: Job, c: Job)
    requires CoMove(a, b) && b.userPaused && (if b.cfg.hasUserResume then CoMove(b, c) && Called(b, c) else c == b)
    ensures c.pauseCount > 0 && StayMove(a, Lift(c, Silent(b))) && Resumes(b, Lift(c, Silent(b)))
    ensures Silent(a) ==> c.leaks == a.leaks && Silent(b)
  {
    hide CoMove, StayMove, Called, Lift;
    SilentStays(a, b);
    if b.cfg.hasUserResume {
      CoMoves(a, b, c);
      SilentStays(b, c);
      if Silent(b) {
        SilentCalled(b, c);
      }
    } else {
      NoErrorStatus(a, b);
    }
    LiftStays(a, c, Silent(b));
  }

  lemma SilentStays(a: Job, b: Job)
    requires CoMove(a, b)
    ensures Silent(a) ==> Silent(b) && b.leaks == a.leaks
    ensures a.userPaused ==> b.userPaused
  {
  }

  lemma NoErrorStatus(a: Job, b: Job)
    requires CoMove(a, b) && !b.cfg.hasUserResume
    ensures !b.ioError
  {
  }

  lemma LiftStays(a: Job, c: Job, silent: bool)
    requires CoMove(a, c) && c.userPaused && (silent ==> !c.ioError)
    ensures c.pauseCount > 0 && StayMove(a, Lift(c, silent))
  {
  }

  lemma SilentCalled(a: Job, c: Job)
    requires Silent(a) && Called(a, c)
    ensures !c.ioError
  {
  }

  lemma CancelMoves(a: Job, b: Job, eff: bool)
    requires StayMove(a, b) && !b.userPaused && b.cancelled == a.cancelled && b.force == a.force
    requires Silent(a) ==> b.late == a.late && b.leaks == a.leaks
    ensures CancelMove(a, Flagged(b, eff), eff)
  {
  }
}
