/** The job core. Every method stands for a function called with the job lock held;
    where that function drops the lock, `Poll` or `Short` lets other threads act. */
module JobManager {
  import opened Options
  import opened Numbers
  import opened Seqs
  import opened Jobs

  const ECANCELED := -125

  /** What a callback answered, and the world its caller finds afterwards. */
  datatype Window = Window(answer: int, world: World)

  /** The job will be finalised by job_abort. */
  predicate Fated(b: Job) {
    b.force || b.ret != 0
  }

  /** job_update_rc_locked. */
  function Settled(b: Job): Job {
    if Fated(b) then b.(ret := if b.ret == 0 then ECANCELED else b.ret, status := Aborting) else b
  }

  function EndOf(b: Job): End {
    if Fated(b) then Aborted else Committed
  }

  class Manager {
    var jobs: map<JobId, Job>
    var txns: map<TxnId, Txn>
    var ends: map<JobId, seq<End>>
    var script: seq<Window>          // what other threads will do, one entry per window

    /** No jobs yet. */
    constructor (script: seq<Window>)
      ensures jobs == map[] && txns == map[] && ends == map[] && this.script == script && Ok(W())
    {
      jobs, txns, ends, this.script := map[], map[], map[], script;
    }

    function W(): World
      reads this
    {
      World(jobs, txns, ends)
    }

    // -------------------------------------------------------------------------
    // The lock is dropped.

    /** What the next callback will answer. */
    static function Answer(script: seq<Window>): int {
      if script == [] then 0 else script[0].answer
    }

    static function Rest(script: seq<Window>): seq<Window> {
      if script == [] then [] else script[1..]
    }

    /** Around a callback that may run the main loop. */
    method Poll() returns (answer: int)
      requires Ok(W())
      modifies this
      ensures PollWorld(old(W()), W()) && answer == Answer(old(script)) && script == Rest(old(script))
    {
      hide Linked, Phase;
      PollSelf(W());
      answer := 0;
      if script != [] {
        var next := script[0];
        script := script[1..];
        answer := next.answer;
        if PollWorld(W(), next.world) {
          jobs, txns, ends := next.world.jobs, next.world.txns, next.world.ends;
        }
      }
    }

    /** The same in the middle of an error action on `j`: nobody else ends it, and the job
        does not go away under it. */
    method PollInFlight(j: JobId)
      requires Ok(W()) && j in jobs && jobs[j].inFlight >= 1
      modifies this
      ensures PollWorld(old(W()), W()) && j in jobs && jobs[j].inFlight >= 1 && jobs[j].cfg == old(jobs[j]).cfg
    {
      hide Linked, Phase;
      PollSelf(W());
      if script != [] {
        var next := script[0];
        script := script[1..];
        if PollWorld(W(), next.world) && j in next.world.jobs && next.world.jobs[j].inFlight >= 1 {
          jobs, txns, ends := next.world.jobs, next.world.txns, next.world.ends;
        }
      }
    }

    static lemma PollSelf(w: World)
      requires Ok(w)
      ensures PollWorld(w, w)
    {
      forall t | t in w.txns ensures TxnIn(w, t) {
      }
    }

    /** Around one that does not. */
    method Short() returns (answer: int)
      requires Linked(W())
      modifies this`jobs, this`script
      ensures CoWorld(old(W()), W()) && answer == Answer(old(script)) && script == Rest(old(script))
    {
      ShortSelf(W());
      hide Linked, CoMove;
      answer := 0;
      if script != [] {
        var next := script[0];
        script := script[1..];
        answer := next.answer;
        if CoWorld(W(), next.world) {
          jobs := next.world.jobs;
        }
      }
    }

    static lemma ShortSelf(w: World)
      requires Linked(w)
      ensures CoWorld(w, w)
    {
      forall j | j in w.jobs ensures CoMove(w.jobs[j], w.jobs[j]) {
        CoMoveSelf(w.jobs[j]);
      }
    }

    // -------------------------------------------------------------------------
    // Small steps.

    /** job_state_transition_locked: the table must allow it. */
    method Transition(j: JobId, s: Status)
      requires j in jobs && Stt(jobs[j].status, s)
      modifies this`jobs
      ensures jobs == old(jobs)[j := old(jobs[j]).(status := s)]
    {
      jobs := jobs[j := jobs[j].(status := s)];
    }

    method UpdateRc(j: JobId)
      requires j in jobs && (Fated(jobs[j]) ==> Stt(jobs[j].status, Aborting))
      modifies this`jobs
      ensures jobs == old(jobs)[j := Settled(old(jobs[j]))]
    {
      if jobs[j].ret == 0 && jobs[j].force {
        jobs := jobs[j := jobs[j].(ret := ECANCELED)];
      }
      if jobs[j].ret != 0 {
        Transition(j, Aborting);
      }
    }

    method Ref(j: JobId)
      requires j in jobs
      modifies this`jobs
      ensures jobs == old(jobs)[j := old(jobs[j]).(refcnt := old(jobs[j]).refcnt + 1)]
    {
      jobs := jobs[j := jobs[j].(refcnt := jobs[j].refcnt + 1)];
    }

    /** job_unref_locked. Its assertions: a job that goes is dismissed and in no
        transaction. */
    method Unref(j: JobId)
      requires Linked(W()) && j in jobs && jobs[j].refcnt > One(jobs[j].status != Null)
      modifies this`jobs, this`script
      ensures Linked(W()) && Unreffed(old(W()), W(), j)
    {
      hide Linked;
      ghost var w := W();
      RefLinked(w, j, -1);
      jobs := jobs[j := jobs[j].(refcnt := jobs[j].refcnt - 1)];
      if jobs[j].refcnt == 0 {
        var _ := Short();
        ghost var u := W();
        jobs := jobs - {j};
        UnreffedGone(w, u, j);
      } else {
        UnreffedKept(w, j);
      }
      UnreffedLinked(w, W(), j);
    }

    static lemma UnreffedKept(w: World, j: JobId)
      requires Linked(w) && j in w.jobs && w.jobs[j].refcnt != 1
      ensures Unreffed(w, Put(w, j, w.jobs[j].(refcnt := w.jobs[j].refcnt - 1)), j)
    {
      forall i | i in w.jobs ensures CoMove(w.jobs[i], w.jobs[i]) {
        CoMoveSelf(w.jobs[i]);
      }
    }

    static lemma UnreffedGone(w: World, u: World, j: JobId)
      requires j in w.jobs && w.jobs[j].refcnt == 1 && CoWorld(Put(w, j, w.jobs[j].(refcnt := 0)), u)
      ensures Unreffed(w, u.(jobs := u.jobs - {j}), j)
    {
      hide CoMove;
    }

    static lemma RefLinked(w: World, j: JobId, d: int)
      requires Linked(w) && j in w.jobs && w.jobs[j].refcnt + d >= One(w.jobs[j].status != Null)
      ensures Linked(Put(w, j, w.jobs[j].(refcnt := w.jobs[j].refcnt + d)))
      ensures w.jobs[j].status == Null ==> w.jobs[j].txn == None
    {
      PutLinked(w, j, w.jobs[j].(refcnt := w.jobs[j].refcnt + d));
    }

    /** job_do_dismiss_locked. */
    method DoDismiss(j: JobId)
      requires j in jobs && Stt(jobs[j].status, Null) && jobs[j].refcnt >= 1
      requires jobs[j].txn.Some? ==> jobs[j].txn.value in txns && NoDup(txns[jobs[j].txn.value].jobs)
      requires Linked(Dismissed(W(), j))
      modifies this`jobs, this`txns, this`script
      ensures Linked(W()) && Unreffed(Dismissed(old(W()), j), W(), j)
    {
      hide Linked, Unreffed;
      ghost var w := W();
      ghost var a := w.jobs[j];
      ghost var b := a.(busy := false, paused := false, deferred := true);
      jobs := jobs[j := jobs[j].(busy := false, paused := false, deferred := true)];
      TxnDel(j);
      Transition(j, Null);
      assert jobs == w.jobs[j := Dismissal(a)] by {
        ChangedTwice(w.jobs, j, b, b.(txn := None), Dismissal(a));
      }
      assert W() == Dismissed(w, j);
      Unref(j);
    }

    static lemma ChangedTwice(jobs: map<JobId, Job>, j: JobId, a: Job, b: Job, c: Job)
      ensures jobs[j := a][j := b][j := c] == jobs[j := c]
    {
    }

    static function Dismissed(w: World, j: JobId): World
      requires j in w.jobs
      requires w.jobs[j].txn.Some? ==> w.jobs[j].txn.value in w.txns && NoDup(w.txns[w.jobs[j].txn.value].jobs)
    {
      if w.jobs[j].txn.Some? then Left(w, j, Dismissal(w.jobs[j]), w.ends) else Put(w, j, Dismissal(w.jobs[j]))
    }

    /** job_txn_del_job_locked. */
    method TxnDel(j: JobId)
      requires j in jobs
      requires jobs[j].txn.Some? ==> jobs[j].txn.value in txns && NoDup(txns[jobs[j].txn.value].jobs)
      modifies this`jobs, this`txns
      ensures jobs == old(jobs)[j := old(jobs[j]).(txn := None)]
      ensures txns == if old(jobs[j]).txn.Some? then DelTxn(old(txns), old(jobs[j]).txn.value, j) else old(txns)
    {
      if jobs[j].txn.Some? {
        var t := jobs[j].txn.value;
        txns := txns[t := txns[t].(jobs := Remove(txns[t].jobs, j))];
        TxnUnref(t);
        jobs := jobs[j := jobs[j].(txn := None)];
      }
    }

    method TxnUnref(t: TxnId)
      requires t in txns
      modifies this`txns
      ensures txns == if old(txns[t]).refcnt == 1 then old(txns) - {t}
                      else old(txns)[t := old(txns[t]).(refcnt := old(txns[t]).refcnt - 1)]
    {
      txns := txns[t := txns[t].(refcnt := txns[t].refcnt - 1)];
      if txns[t].refcnt == 0 {
        txns := txns - {t};
      }
    }

    /** The end of job_finalize_single_locked: the outcome is on record, the job leaves
        its transaction and is concluded, and dismissed if nobody will ask for it. */
    method Retire(j: JobId, e: End)
      requires Linked(W()) && j in jobs && jobs[j].txn.Some? && jobs[j].status in {Aborting, Pending}
      requires jobs[j].txn.value in txns && NoDup(txns[jobs[j].txn.value].jobs)
      modifies this
      ensures Linked(W()) && Retired(old(W()), W(), j, e)
    {
      hide Linked, Unreffed, Retired, DelTxn, NoDup;
      ghost var w := W();
      RetireLinked(w, j, e);
      ends := ends[j := [e]];
      TxnDel(j);
      ghost var u := W();
      assert u == Left(w, j, w.jobs[j].(txn := None), w.ends[j := [e]]);
      LeftParts(w, u, j, e);
      var gone := Conclude(j);
      if gone {
        RetiredDismissed(w, W(), j, e);
      } else {
        RetiredConcluded(w, j, e);
      }
    }

    static lemma LeftParts(w: World, u: World, j: JobId, e: End)
      requires j in w.jobs && w.jobs[j].txn.Some? && w.jobs[j].txn.value in w.txns
      requires NoDup(w.txns[w.jobs[j].txn.value].jobs)
      requires u == Left(w, j, w.jobs[j].(txn := None), w.ends[j := [e]])
      ensures Put(u, j, Dismissal(u.jobs[j])) == Left(w, j, Dismissal(w.jobs[j]), w.ends[j := [e]])
      ensures Put(u, j, u.jobs[j].(status := Concluded))
           == Left(w, j, w.jobs[j].(txn := None, status := Concluded), w.ends[j := [e]])
    {
      hide DelTxn, NoDup;
      var c := w.jobs[j].(txn := None);
      PutPut(w, j, c, Dismissal(c));
      PutPut(w, j, c, c.(status := Concluded));
    }

    /** job_conclude_locked. */
    method Conclude(j: JobId) returns (dismissed: bool)
      requires j in jobs && Stt(jobs[j].status, Concluded) && jobs[j].txn == None && jobs[j].refcnt >= 1
      requires Linked(Put(W(), j, Dismissal(jobs[j])))
      requires jobs[j].co != NoCo ==> Linked(Put(W(), j, jobs[j].(status := Concluded)))
      modifies this`jobs, this`txns, this`script
      ensures Linked(W()) && dismissed == (old(jobs[j]).cfg.autoDismiss || old(jobs[j]).co == NoCo)
      ensures if dismissed then Unreffed(Put(old(W()), j, Dismissal(old(jobs[j]))), W(), j)
              else W() == Put(old(W()), j, old(jobs[j]).(status := Concluded))
    {
      hide Linked, Unreffed;
      ghost var u := W();
      Transition(j, Concluded);
      dismissed := jobs[j].cfg.autoDismiss || jobs[j].co == NoCo;
      if dismissed {
        assert Dismissed(W(), j) == Put(u, j, Dismissal(u.jobs[j]));
        DoDismiss(j);
      }
    }

    static lemma RetireLinked(w: World, j: JobId, e: End)
      requires Linked(w) && j in w.jobs && w.jobs[j].txn.Some? && w.jobs[j].status in {Aborting, Pending}
      requires w.jobs[j].txn.value in w.txns && NoDup(w.txns[w.jobs[j].txn.value].jobs)
      ensures w.jobs[j].refcnt >= 1
      ensures Linked(Left(w, j, Dismissal(w.jobs[j]), w.ends[j := [e]]))
      ensures w.jobs[j].co != NoCo ==>
                Linked(Left(w, j, w.jobs[j].(txn := None, status := Concluded), w.ends[j := [e]]))
    {
      assert JobOk(w.jobs[j]) && JobIn(w, j);
      LeftLinked(w, j, Dismissal(w.jobs[j]), [e]);
      if w.jobs[j].co != NoCo {
        LeftLinked(w, j, w.jobs[j].(txn := None, status := Concluded), [e]);
      }
    }

    static lemma RetiredDismissed(w: World, v: World, j: JobId, e: End)
      requires Linked(w) && j in w.jobs && w.jobs[j].txn.Some? && w.jobs[j].status in {Aborting, Pending}
      requires w.jobs[j].txn.value in w.txns && NoDup(w.txns[w.jobs[j].txn.value].jobs)
      requires Unreffed(Left(w, j, Dismissal(w.jobs[j]), w.ends[j := [e]]), v, j)
      ensures Retired(w, v, j, e)
    {
      hide CoMove;
      assert JobOk(w.jobs[j]);
    }

    static lemma RetiredConcluded(w: World, j: JobId, e: End)
      requires Linked(w) && j in w.jobs && w.jobs[j].txn.Some? && w.jobs[j].status in {Aborting, Pending}
      requires w.jobs[j].txn.value in w.txns && NoDup(w.txns[w.jobs[j].txn.value].jobs)
      ensures Retired(w, Left(w, j, w.jobs[j].(txn := None, status := Concluded), w.ends[j := [e]]), j, e)
    {
      forall i | i in w.jobs ensures CoMove(w.jobs[i], w.jobs[i]) {
        CoMoveSelf(w.jobs[i]);
      }
      hide CoMove;
    }

    // -------------------------------------------------------------------------
    // Finalising one job.

    /** `j` is completed, and its transaction is being finalised. */
    static predicate Finalisable(w: World, j: JobId) {
      && j in w.jobs && w.jobs[j].txn.Some? && w.jobs[j].txn.value in w.txns && w.txns[w.jobs[j].txn.value].busy
      && Completed(w.jobs[j].status) && (!Fated(w.jobs[j]) ==> w.jobs[j].status == Pending)
    }

    /** Exactly `j` has left the transaction, with the outcome its state called for. */
    static ghost predicate Finalised(w: World, v: World, j: JobId)
      requires Linked(w) && Finalisable(w, j)
    {
      var t := w.jobs[j].txn.value;
      assert TxnIn(w, t);
      && Later(w, v) && BusySame(w, v, Some(t))
      && j in v.ends && v.ends[j] == [EndOf(w.jobs[j])]
      && (forall i :: i in w.txns[t].jobs && i != j ==> i in w.jobs && i in v.jobs && BusyMove(w.jobs[i], v.jobs[i]))
      && (t in v.txns <==> w.txns[t].refcnt != 1)
      && (t in v.txns ==>
            v.txns[t] == w.txns[t].(jobs := Remove(w.txns[t].jobs, j), refcnt := w.txns[t].refcnt - 1))
    }

    /** job_finalize_single_locked. */
    method FinalizeSingle(j: JobId)
      requires Ok(W()) && Finalisable(W(), j)
      modifies this
      ensures Ok(W()) && Finalised(old(W()), W(), j)
    {
      hide Linked, Phase, Later, BusySame, Retired, BusyMove;
      ghost var w := W();
      SettleKeeps(w, j);
      UpdateRc(j);
      var ret := jobs[j].ret;
      ghost var w1 := W();
      assert w1 == Put(w, j, Settled(w.jobs[j]));
      var _ := Poll();                 // commit or abort, clean, and the completion callback
      ghost var w2 := W();
      StillThere(w1, w2, j);
      Retire(j, if ret == 0 then Committed else Aborted);
      FinalisedThen(w, w1, w2, W(), j, w.jobs[j].txn.value, EndOf(w.jobs[j]));
    }

    static lemma SettleKeeps(w: World, j: JobId)
      requires Ok(w) && Finalisable(w, j)
      ensures Fated(w.jobs[j]) ==> Stt(w.jobs[j].status, Aborting)
      ensures Ok(Put(w, j, Settled(w.jobs[j]))) && Finalisable(Put(w, j, Settled(w.jobs[j])), j)
    {
      hide Linked, JobOk, Phase;
      var b, t := Settled(w.jobs[j]), w.jobs[j].txn.value;
      SettledJob(w, j);
      PutLinked(w, j, b);
      forall u | u in w.txns ensures Phase(Put(w, j, b), u) {
        if u != t {
          PutPhase(w, j, b, u);
        } else {
          SettledPhase(w, j, t);
        }
      }
    }

    static lemma SettledJob(w: World, j: JobId)
      requires Linked(w) && Finalisable(w, j)
      ensures JobOk(Settled(w.jobs[j])) && (Fated(w.jobs[j]) ==> Stt(w.jobs[j].status, Aborting))
    {
      assert JobOk(w.jobs[j]);
    }

    static lemma SettledPhase(w: World, j: JobId, t: TxnId)
      requires Linked(w) && Finalisable(w, j) && w.jobs[j].txn == Some(t) && Phase(w, t)
      ensures Phase(Put(w, j, Settled(w.jobs[j])), t)
    {
      assert JobIn(w, j) && JobOk(w.jobs[j]);
    }

    static lemma StillThere(w: World, v: World, j: JobId)
      requires Linked(w) && Finalisable(w, j) && PollWorld(w, v)
      requires w.jobs[j].status in {Aborting, Pending}
      ensures Finalisable(v, j) && v.jobs[j].status == w.jobs[j].status && v.jobs[j].txn == w.jobs[j].txn
      ensures v.txns[v.jobs[j].txn.value] == w.txns[v.jobs[j].txn.value] && NoDup(v.txns[v.jobs[j].txn.value].jobs)
    {
      var t := w.jobs[j].txn.value;
      assert JobIn(w, j) && TxnIn(v, t);
      assert BusyMove(w.jobs[j], v.jobs[j]);
    }

    static lemma FinalisedThen(w: World, w1: World, w2: World, v: World, j: JobId, t: TxnId, e: End)
      requires Ok(w) && Finalisable(w, j) && w.jobs[j].txn == Some(t) && e == EndOf(w.jobs[j])
      requires w1 == Put(w, j, Settled(w.jobs[j])) && Ok(w1) && PollWorld(w1, w2)
      requires j in w2.jobs && w2.jobs[j].txn == Some(t) && t in w2.txns && w2.txns[t] == w.txns[t]
      requires NoDup(w2.txns[t].jobs) && Linked(v) && Retired(w2, v, j, e)
      ensures Ok(v) && Finalised(w, v, j)
    {
      hide Linked, Phase, Later, BusySame, BusyMove, Settled, EndOf, Fated, NoDup;
      RetiredOk(w2, v, j, e, t);
      RetiredBusy(w2, v, j, e, t);
      RetiredLater(w2, v, j, e, t);
      SettleMoves(w, j);
      LaterTrans(w, w1, w2);
      LaterTrans(w, w2, v);
      BusyWeaker(w1, w2, Some(t));
      BusyTrans(w, w1, w2, Some(t));
      BusyTrans(w, w2, v, Some(t));
      FinalisedMembers(w, w1, w2, v, j, t);
    }

    static lemma FinalisedMembers(w: World, w1: World, w2: World, v: World, j: JobId, t: TxnId)
      requires j in w.jobs && w1 == Put(w, j, Settled(w.jobs[j])) && t in w.txns && w.txns[t].busy
      requires BusySame(w1, w2, None)
      requires forall i :: i in w.txns[t].jobs && i != j ==>
                 i in w2.jobs && i in v.jobs && BusyMove(w2.jobs[i], v.jobs[i])
      ensures forall i :: i in w.txns[t].jobs && i != j ==> i in w.jobs && i in v.jobs && BusyMove(w.jobs[i], v.jobs[i])
    {
      hide BusySame, BusyMove, Settled;
      MembersMove(w1, w2, t);
      forall i | i in w.txns[t].jobs && i != j ensures i in w.jobs && i in v.jobs && BusyMove(w.jobs[i], v.jobs[i]) {
        BusyMoves(w1.jobs[i], w2.jobs[i], v.jobs[i]);
      }
    }

    static lemma BusyMoves(a: Job, b: Job, c: Job)
      requires BusyMove(a, b) && BusyMove(b, c)
      ensures BusyMove(a, c)
    {
    }

    static lemma MembersMove(w: World, v: World, t: TxnId)
      requires BusySame(w, v, None) && t in w.txns && w.txns[t].busy
      ensures t in v.txns && v.txns[t] == w.txns[t]
      ensures forall i :: i in w.txns[t].jobs ==> i in w.jobs && i in v.jobs && BusyMove(w.jobs[i], v.jobs[i])
    {
    }

    static lemma SettleMoves(w: World, j: JobId)
      requires Ok(w) && Finalisable(w, j)
      ensures Later(w, Put(w, j, Settled(w.jobs[j])))
      ensures BusySame(w, Put(w, j, Settled(w.jobs[j])), w.jobs[j].txn)
    {
      assert JobOk(w.jobs[j]);
      PutLater(w, j, Settled(w.jobs[j]));
      PutBusy(w, j, Settled(w.jobs[j]), w.jobs[j].txn);
    }

    // -------------------------------------------------------------------------
    // Cancelling.

    /** block_job_user_resume, with the lock dropped before and after. The assertion
        in block_job_iostatus_reset_locked holds for a job paused by its user. */
    method UserResumeCallback(j: JobId)
      requires Linked(W()) && j in jobs && jobs[j].userPaused
      modifies this`jobs, this`script
      ensures Linked(W()) && CoWorld(old(W()), W()) && Called(old(jobs[j]), jobs[j])
    {
      hide Linked, CoMove, Called;
      ghost var w := W();
      var _ := Short();
      CoKeepsLinked(w, W());
      ghost var w1 := W();
      ResetIoKeeps(w, w1, j);
      if jobs[j].ioError {
        assert jobs[j].userPaused && jobs[j].pauseCount > 0;
        jobs := jobs[j := jobs[j].(ioError := false)];
      }
      ghost var w2 := W();
      var _ := Short();
      CoKeepsLinked(w2, W());
      CalledWorld(w, w1, w2, W(), j);
    }

    static lemma ResetIoKeeps(w: World, v: World, j: JobId)
      requires Linked(w) && CoWorld(w, v) && Linked(v) && j in w.jobs && w.jobs[j].userPaused
      ensures v.jobs[j].userPaused && v.jobs[j].pauseCount > 0
      ensures Linked(Put(v, j, v.jobs[j].(ioError := false))) && CoWorld(w, Put(v, j, v.jobs[j].(ioError := false)))
    {
      hide CoMove, Linked, JobOk;
      ResetIoMove(w.jobs[j], v.jobs[j]);
      PutLinked(v, j, v.jobs[j].(ioError := false));
    }

    static lemma ResetIoMove(a: Job, b: Job)
      requires CoMove(a, b) && a.userPaused
      ensures b.userPaused && b.pauseCount > 0 && b.txn == a.txn
      ensures JobOk(b.(ioError := false)) && CoMove(a, b.(ioError := false))
    {
    }

    static lemma CalledWorld(w: World, w1: World, w2: World, v: World, j: JobId)
      requires CoWorld(w, w1) && CoWorld(w, w2) && CoWorld(w2, v) && j in w.jobs && w.jobs[j].userPaused
      requires w2.jobs[j] == w1.jobs[j].(ioError := false)
      ensures CoWorld(w, v) && Called(w.jobs[j], v.jobs[j])
    {
      hide CoMove, Called;
      CoWorlds(w, w2, v);
      CalledMove(w.jobs[j], w1.jobs[j], v.jobs[j]);
    }

    static lemma CoWorlds(u: World, v: World, w: World)
      requires CoWorld(u, v) && CoWorld(v, w)
      ensures CoWorld(u, w)
    {
      hide CoMove;
      forall i | i in u.jobs ensures CoMove(u.jobs[i], w.jobs[i]) {
        CoMoves(u.jobs[i], v.jobs[i], w.jobs[i]);
      }
    }

    /** Whether a request to cancel takes effect by force, given the status the driver
        sees and the answer of a driver of another kind. Asked for force, none refuses. */
    static predicate Forces(rule: CancelRule, force: bool, status: Status, answer: int) {
      force || match rule
               case NoCancel => true
               case AlwaysForce => true
               case SoftWhenReady => status !in {Ready, Standby}
               case OtherCancel => answer != 0
    }

    /** The driver's cancel callback; it may look at the status at some point. */
    method AskDriver(j: JobId, force: bool) returns (eff: bool, ghost asked: Status)
      requires Linked(W()) && j in jobs
      modifies this`jobs, this`script
      ensures Linked(W()) && CoWorld(old(W()), W()) && (old(jobs[j]).cfg.cancel == NoCancel ==> W() == old(W()))
      ensures eff == Forces(old(jobs[j]).cfg.cancel, force, asked, Answer(old(script)))
      ensures old(jobs[j]).co == NoCo || Completed(old(jobs[j]).status) ==> asked == old(jobs[j]).status
    {
      hide Linked, CoMove;
      ghost var w := W();
      var status := jobs[j].status;
      asked := status;
      if jobs[j].cfg.cancel == NoCancel {
        CancelStart(w);
        return true, asked;
      }
      var rule := jobs[j].cfg.cancel;
      var answer := Short();
      CoKeepsLinked(w, W());
      ghost var w1 := W();
      SeenStatus(w.jobs[j], w1.jobs[j]);
      status := jobs[j].status;
      asked := status;
      var _ := Short();
      CoKeepsLinked(w1, W());
      CoWorlds(w, w1, W());
      eff := Forces(rule, force, status, answer);
    }

    static lemma SeenStatus(a: Job, b: Job)
      requires CoMove(a, b)
      ensures a.co == NoCo || Completed(a.status) ==> b.status == a.status
    {
    }

    /** job_cancel_async_locked. */
    method CancelAsync(j: JobId, force: bool) returns (eff: bool, ghost asked: Status)
      requires Linked(W()) && j in jobs
      modifies this`jobs, this`script
      ensures Linked(W()) && CancelWorld(old(W()), W(), j, eff) && j in jobs && Cancels(old(jobs[j]), jobs[j], eff)
      ensures eff == Forces(old(jobs[j]).cfg.cancel, force, asked, Answer(old(script)))
      ensures old(jobs[j]).co == NoCo || Completed(old(jobs[j]).status) ==> asked == old(jobs[j]).status
    {
      hide Linked, CoMove, CancelMove, Lifted, CancelWorld, Lift, Forces, Called, Cancels, Silent;
      ghost var w := W();
      eff, asked := AskDriver(j, force);
      ghost var w1 := W();
      if jobs[j].userPaused {
        var silent := Silent(jobs[j]);
        if jobs[j].cfg.hasUserResume {
          UserResumeCallback(j);
        }
        CancelMiddle(w, w1, W(), j);
        assert jobs[j].pauseCount > 0;
        jobs := jobs[j := Lift(jobs[j], silent)];
      } else {
        CancelUnpaused(w, w1, j);
      }
      ghost var w2 := W();
      if eff || !jobs[j].deferred {
        jobs := jobs[j := jobs[j].(cancelled := true, force := jobs[j].force || eff)];
      }
      CancelEnd(w, w1, w2, W(), j, eff);
    }

    static lemma CancelStart(w: World)
      requires Linked(w)
      ensures CoWorld(w, w)
    {
      ShortSelf(w);
    }

    /** After the callbacks, with the user pause lifted. */
    static ghost predicate Lifted(w: World, w1: World, v: World, j: JobId)
      requires j in w.jobs
    {
      && v.txns == w.txns && v.ends == w.ends && v.jobs.Keys == w.jobs.Keys && j in w1.jobs
      && (forall i :: i in w.jobs && i != j ==> CoMove(w.jobs[i], v.jobs[i]))
      && StayMove(w.jobs[j], v.jobs[j]) && v.jobs[j].cancelled == w.jobs[j].cancelled
      && v.jobs[j].force == w.jobs[j].force
      && !v.jobs[j].userPaused && CoMove(w.jobs[j], w1.jobs[j])
      && (Silent(w.jobs[j]) ==> v.jobs[j].late == w.jobs[j].late && v.jobs[j].leaks == w.jobs[j].leaks)
      && (if w1.jobs[j].userPaused then Resumes(w1.jobs[j], v.jobs[j]) else v.jobs[j] == w1.jobs[j])
    }

    static lemma CancelMiddle(w: World, w1: World, w2: World, j: JobId)
      requires CoWorld(w, w1) && j in w.jobs && w1.jobs[j].userPaused
      requires if w1.jobs[j].cfg.hasUserResume then CoWorld(w1, w2) && Called(w1.jobs[j], w2.jobs[j]) else w2 == w1
      ensures w2.jobs[j].pauseCount > 0 && Lifted(w, w1, Put(w2, j, Lift(w2.jobs[j], Silent(w1.jobs[j]))), j)
    {
      hide CoMove, StayMove, Called, Resumes, Silent;
      forall i | i in w.jobs ensures CoMove(w.jobs[i], w2.jobs[i]) {
        if w2 != w1 {
          CoMoves(w.jobs[i], w1.jobs[i], w2.jobs[i]);
        }
      }
      LiftMoves(w.jobs[j], w1.jobs[j], w2.jobs[j]);
      CoSameFlags(w.jobs[j], w2.jobs[j]);
    }

    static lemma CoSameFlags(a: Job, b: Job)
      requires CoMove(a, b)
      ensures b.cancelled == a.cancelled && b.force == a.force && StayMove(a, b)
      ensures b.late == a.late && (Silent(a) ==> b.leaks == a.leaks)
    {
    }

    static lemma CancelUnpaused(w: World, w1: World, j: JobId)
      requires CoWorld(w, w1) && j in w.jobs && !w1.jobs[j].userPaused
      ensures Lifted(w, w1, w1, j)
    {
      CoSameFlags(w.jobs[j], w1.jobs[j]);
      hide CoMove, StayMove;
    }

    static lemma CancelEnd(w: World, w1: World, w2: World, v: World, j: JobId, eff: bool)
      requires Linked(w) && j in w.jobs && Lifted(w, w1, w2, j)
      requires w.jobs[j].cfg.cancel == NoCancel ==> w1 == w
      requires v == if eff || !w2.jobs[j].deferred
                    then Put(w2, j, w2.jobs[j].(cancelled := true, force := w2.jobs[j].force || eff)) else w2
      ensures Linked(v) && CancelWorld(w, v, j, eff) && Cancels(w.jobs[j], v.jobs[j], eff)
    {
      hide CoMove, StayMove, Linked, Resumes, Silent, Cancels, CancelMove, Flagged;
      FlaggedWorld(w2, v, j, eff);
      CancelMoves(w.jobs[j], w2.jobs[j], eff);
      CancelStay(w.jobs[j], v.jobs[j], eff);
      forall i | i in w.jobs ensures StayMove(w.jobs[i], v.jobs[i]) {
        if i != j {
          CoIsStay(w.jobs[i], v.jobs[i]);
        }
      }
      StayLinked(w, v);
      CancelsBy(w.jobs[j], w1.jobs[j], w2.jobs[j], eff);
    }

    static lemma FlaggedWorld(w2: World, v: World, j: JobId, eff: bool)
      requires j in w2.jobs
      requires v == if eff || !w2.jobs[j].deferred
                    then Put(w2, j, w2.jobs[j].(cancelled := true, force := w2.jobs[j].force || eff)) else w2
      ensures v.txns == w2.txns && v.ends == w2.ends && v.jobs.Keys == w2.jobs.Keys
      ensures v.jobs[j] == Flagged(w2.jobs[j], eff)
      ensures forall i :: i in w2.jobs && i != j ==> v.jobs[i] == w2.jobs[i]
    {
    }

    static lemma CancelsBy(a: Job, b: Job, c: Job, eff: bool)
      requires if a.cfg.cancel == NoCancel then b == a else CoMove(a, b)
      requires if b.userPaused then Resumes(b, c) else c == b
      ensures Cancels(a, Flagged(c, eff), eff)
    {
      hide CoMove, Resumes, Flagged;
    }

    static lemma CancelStay(a: Job, b: Job, eff: bool)
      requires CancelMove(a, b, eff)
      ensures StayMove(a, b)
    {
    }

    // -------------------------------------------------------------------------
    // A transaction aborts.

    /** job_completed_txn_abort_locked cancels everybody but the trigger by force. */
    method CancelOthers(t: TxnId, trigger: JobId)
      requires Linked(W()) && t in txns
      modifies this`jobs, this`script
      ensures Linked(W()) && StayWorld(old(W()), W()) && OthersCancelled(old(W()), W(), t, trigger, |txns[t].jobs|)
    {
      hide Linked, StayMove, CoMove;
      ghost var w := W();
      var list := txns[t].jobs;
      MembersExist(w, t);
      NobodyCancelled(w, t, trigger);
      for k := 0 to |list|
        invariant Linked(W()) && StayWorld(w, W()) && OthersCancelled(w, W(), t, trigger, k)
      {
        if list[k] != trigger {
          ghost var v := W();
          assert list[k] in jobs;
          var eff, _ := CancelAsync(list[k], true);
          CancelOneMore(w, v, W(), t, trigger, k);
        } else {
          SkipTrigger(w, W(), t, trigger, k);
        }
      }
    }

    /** The first `k` jobs of the list, the trigger apart, are cancelled by force;
        nobody else was. */
    static ghost predicate OthersCancelled(w: World, v: World, t: TxnId, trigger: JobId, k: nat)
      requires t in w.txns && v.jobs.Keys == w.jobs.Keys
    {
      && k <= |w.txns[t].jobs|
      && (forall i :: 0 <= i < k && w.txns[t].jobs[i] != trigger && w.txns[t].jobs[i] in v.jobs ==>
                        v.jobs[w.txns[t].jobs[i]].force)
      && (forall j :: j in w.jobs && (j == trigger || j !in w.txns[t].jobs) ==> CoMove(w.jobs[j], v.jobs[j]))
    }

    static lemma MembersExist(w: World, t: TxnId)
      requires Linked(w) && t in w.txns
      ensures NoDup(w.txns[t].jobs) && forall j :: j in w.txns[t].jobs ==> j in w.jobs && w.jobs[j].txn == Some(t)
    {
      assert TxnIn(w, t);
    }

    static lemma NobodyCancelled(w: World, t: TxnId, trigger: JobId)
      requires Linked(w) && t in w.txns
      ensures StayWorld(w, w) && OthersCancelled(w, w, t, trigger, 0)
    {
      forall j | j in w.jobs ensures CoMove(w.jobs[j], w.jobs[j]) && StayMove(w.jobs[j], w.jobs[j]) {
        CoMoveSelf(w.jobs[j]);
        CoIsStay(w.jobs[j], w.jobs[j]);
      }
    }

    static lemma CancelOneMore(w: World, v: World, u: World, t: TxnId, trigger: JobId, k: nat)
      requires t in w.txns && StayWorld(w, v) && OthersCancelled(w, v, t, trigger, k) && k < |w.txns[t].jobs|
      requires w.txns[t].jobs[k] != trigger && w.txns[t].jobs[k] in w.jobs && CancelWorld(v, u, w.txns[t].jobs[k], true)
      ensures StayWorld(w, u) && OthersCancelled(w, u, t, trigger, k + 1)
    {
      hide CoMove, StayMove, CancelMove;
      var list := w.txns[t].jobs;
      forall j | j in w.jobs
        ensures StayMove(w.jobs[j], u.jobs[j]) && (v.jobs[j].force ==> u.jobs[j].force)
        ensures j != list[k] && CoMove(w.jobs[j], v.jobs[j]) ==> CoMove(w.jobs[j], u.jobs[j])
      {
        CancelStays(v.jobs[j], u.jobs[j]);
        StayMoves(w.jobs[j], v.jobs[j], u.jobs[j]);
        if j != list[k] && CoMove(w.jobs[j], v.jobs[j]) {
          CoMoves(w.jobs[j], v.jobs[j], u.jobs[j]);
        }
      }
      CancelStays(v.jobs[list[k]], u.jobs[list[k]]);
    }

    static lemma CancelStays(a: Job, b: Job)
      requires CoMove(a, b) || CancelMove(a, b, true)
      ensures StayMove(a, b) && (a.force ==> b.force) && (CancelMove(a, b, true) ==> b.force)
    {
    }

    static lemma SkipTrigger(w: World, v: World, t: TxnId, trigger: JobId, k: nat)
      requires t in w.txns && v.jobs.Keys == w.jobs.Keys && OthersCancelled(w, v, t, trigger, k)
      requires k < |w.txns[t].jobs| && w.txns[t].jobs[k] == trigger
      ensures OthersCancelled(w, v, t, trigger, k + 1)
    {
    }

    /** The wait in job_finish_sync_locked. That it ever ends is not claimed; when the
        script does not say how, the coroutine ends and job_exit runs. */
    method PollUntilCompleted(j: JobId)
      requires Ok(W()) && j in jobs && jobs[j].txn.Some? && jobs[j].txn.value in txns
      requires txns[jobs[j].txn.value].busy && txns[jobs[j].txn.value].aborting
      modifies this
      ensures PollWorld(old(W()), W()) && j in jobs && Completed(jobs[j].status)
    {
      hide Linked, Phase, Later, BusySame;
      PollSelf(W());
      if !Completed(jobs[j].status) {
        if script != [] && PollWorld(W(), script[0].world)
           && j in script[0].world.jobs && Completed(script[0].world.jobs[j].status) {
          jobs, txns, ends := script[0].world.jobs, script[0].world.txns, script[0].world.ends;
        } else {
          ExitKeeps(W(), j);
          jobs := jobs[j := Exited(jobs[j])];
        }
        script := if script == [] then [] else script[1..];
      }
    }

    static function Exited(b: Job): Job {
      b.(status := Aborting, ret := if b.ret == 0 then ECANCELED else b.ret, busy := false,
         co := if b.co == NoCo then NoCo else Ended, deferred := b.co != NoCo, paused := b.co == NoCo && b.paused,
         guest := b.guest.(attached := false))
    }

    static lemma ExitKeeps(w: World, j: JobId)
      requires Ok(w) && j in w.jobs && w.jobs[j].txn.Some? && w.jobs[j].txn.value in w.txns
      requires !Completed(w.jobs[j].status)
      requires w.txns[w.jobs[j].txn.value].busy && w.txns[w.jobs[j].txn.value].aborting
      ensures PollWorld(w, Put(w, j, Exited(w.jobs[j])))
    {
      hide Linked, Later, BusySame;
      var b, t := Exited(w.jobs[j]), w.jobs[j].txn.value;
      ExitedOk(w, j);
      PutLinked(w, j, b);
      PutLater(w, j, b);
      PutBusy(w, j, b, None);
      forall u | u in w.txns ensures Phase(Put(w, j, b), u) {
        if u != t {
          PutPhase(w, j, b, u);
        }
      }
    }

    static lemma ExitedOk(w: World, j: JobId)
      requires Linked(w) && j in w.jobs && w.jobs[j].txn.Some? && !Completed(w.jobs[j].status)
      ensures JobOk(Exited(w.jobs[j])) && BusyMove(w.jobs[j], Exited(w.jobs[j]))
      ensures Held(Exited(w.jobs[j])) == Held(w.jobs[j])
    {
      assert JobOk(w.jobs[j]);
    }

    /** job_finish_sync_locked without a request to finish. */
    method FinishSync(j: JobId)
      requires Ok(W()) && j in jobs && jobs[j].txn.Some? && jobs[j].txn.value in txns
      requires txns[jobs[j].txn.value].busy && txns[jobs[j].txn.value].aborting
      modifies this
      ensures PollWorld(old(W()), W()) && j in jobs && Completed(jobs[j].status)
    {
      hide Linked, Phase, Later, BusySame, Unreffed;
      ghost var w := W();
      RefOk(w, j);
      Ref(j);
      ghost var w1 := W();
      PollUntilCompleted(j);
      ghost var w2 := W();
      StillMember(w1, w2, j);
      Unref(j);
      SyncDone(w, w1, w2, W(), j);
    }

    static lemma RefOk(w: World, j: JobId)
      requires Ok(w) && j in w.jobs
      ensures Ok(Put(w, j, w.jobs[j].(refcnt := w.jobs[j].refcnt + 1)))
      ensures w.jobs[j].refcnt >= One(w.jobs[j].status != Null) && (w.jobs[j].txn.Some? ==> w.jobs[j].refcnt >= 1)
    {
      var b := w.jobs[j].(refcnt := w.jobs[j].refcnt + 1);
      assert JobOk(w.jobs[j]);
      PutLinked(w, j, b);
      forall u | u in w.txns ensures Phase(Put(w, j, b), u) {
        PutPhase(w, j, b, u);
      }
    }

    static lemma StillMember(w: World, v: World, j: JobId)
      requires Linked(w) && PollWorld(w, v) && j in w.jobs && w.jobs[j].txn.Some? && w.jobs[j].txn.value in w.txns
      requires w.txns[w.jobs[j].txn.value].busy && w.jobs[j].refcnt >= 2
      ensures j in v.jobs && v.jobs[j].txn == w.jobs[j].txn && v.jobs[j].refcnt == w.jobs[j].refcnt
      ensures v.jobs[j].status != Null
    {
      assert JobIn(w, j);
      assert BusyMove(w.jobs[j], v.jobs[j]) && JobOk(v.jobs[j]);
    }

    static lemma SyncDone(w: World, w1: World, w2: World, v: World, j: JobId)
      requires Ok(w) && j in w.jobs && w.jobs[j].txn.Some?
      requires w1 == Put(w, j, w.jobs[j].(refcnt := w.jobs[j].refcnt + 1)) && Linked(w1) && PollWorld(w1, w2)
      requires j in w2.jobs && w2.jobs[j].txn == w.jobs[j].txn && w2.jobs[j].refcnt >= 2 && w2.jobs[j].status != Null
      requires Unreffed(w2, v, j) && Linked(v) && Completed(w2.jobs[j].status)
      ensures PollWorld(w, v) && j in v.jobs && Completed(v.jobs[j].status)
    {
      hide Linked, Phase, BusyMove, Later, BusySame, CoMove, JobOk;
      UnreffedPhases(w2, v, j);
      SyncBusy(w, w1, w2, v, j);
      SyncLater(w, w1, w2, v, j);
    }

    static lemma SyncLater(w: World, w1: World, w2: World, v: World, j: JobId)
      requires Linked(w) && j in w.jobs && w1 == Put(w, j, w.jobs[j].(refcnt := w.jobs[j].refcnt + 1))
      requires Later(w1, w2) && j in w2.jobs && w2.jobs[j].refcnt >= 2
      requires Unreffed(w2, v, j) && Linked(w2)
      ensures Later(w, v)
    {
      assert JobOk(w.jobs[j]);
      hide Later, Unreffed, Linked, JobOk;
      BracketLater(w, w1, w2, v, j);
    }

    static lemma SyncBusy(w: World, w1: World, w2: World, v: World, j: JobId)
      requires Linked(w) && j in w.jobs && w1 == Put(w, j, w.jobs[j].(refcnt := w.jobs[j].refcnt + 1))
      requires BusySame(w1, w2, None) && j in w2.jobs
      requires v == Put(w2, j, w2.jobs[j].(refcnt := w2.jobs[j].refcnt - 1))
      ensures BusySame(w, v, None)
    {
      forall t | t in w.txns && w.txns[t].busy
        ensures t in v.txns && v.txns[t] == w.txns[t]
        ensures forall i :: i in w.txns[t].jobs ==> i in w.jobs && i in v.jobs && BusyMove(w.jobs[i], v.jobs[i])
      {
        assert TxnIn(w, t);
        forall i | i in w.txns[t].jobs ensures i in w.jobs && i in v.jobs && BusyMove(w.jobs[i], v.jobs[i]) {
          assert BusyMove(w1.jobs[i], w2.jobs[i]);
        }
      }
    }

    /** How a job of an aborting transaction ends. */
    static function AbortEnd(w: World, trigger: JobId, j: JobId): End
      requires trigger in w.jobs
    {
      if j == trigger then EndOf(w.jobs[trigger]) else Aborted
    }

    /** The transaction is aborting, all others are cancelled by force, and the trigger
        is completed or cancelled by force. */
    static ghost predicate AbortReady(w: World, t: TxnId, trigger: JobId) {
      && t in w.txns && w.txns[t].busy && w.txns[t].aborting && w.txns[t].refcnt > |w.txns[t].jobs|
      && trigger in w.jobs && (Completed(w.jobs[trigger].status) || w.jobs[trigger].force)
      && (!Fated(w.jobs[trigger]) ==> w.jobs[trigger].status == Pending)
      && (forall i :: i in w.txns[t].jobs && i != trigger ==> i in w.jobs && w.jobs[i].force)
    }

    /** Part of the way: those still in the list are as they were, up to moves of
        others; those gone have ended as they should. */
    static ghost predicate Unwinding(w: World, v: World, t: TxnId, trigger: JobId)
      requires AbortReady(w, t, trigger)
    {
      && Later(w, v) && BusySame(w, v, Some(t))
      && t in v.txns && v.txns[t].busy && v.txns[t].aborting && v.txns[t].refcnt > |v.txns[t].jobs|
      && v.txns[t].refcnt - |v.txns[t].jobs| == w.txns[t].refcnt - |w.txns[t].jobs|
      && (forall i :: i in v.txns[t].jobs ==>
            i in w.txns[t].jobs && i in w.jobs && i in v.jobs && BusyMove(w.jobs[i], v.jobs[i]))
      && (forall i :: i in w.txns[t].jobs && i !in v.txns[t].jobs ==>
           i in v.ends && v.ends[i] == [AbortEnd(w, trigger, i)])
    }

    /** The second loop of job_completed_txn_abort_locked: every job is waited for and
        finalised. */
    method FinishAll(t: TxnId, ghost trigger: JobId)
      requires Ok(W()) && AbortReady(W(), t, trigger)
      modifies this
      ensures Ok(W()) && Unwinding(old(W()), W(), t, trigger) && txns[t].jobs == []
    {
      hide Linked, Phase, Later, BusySame, BusyMove, Unwinding, Finalised;
      ghost var w := W();
      UnwindStart(w, t, trigger);
      UnwindGives(w, W(), t, trigger);
      while txns[t].jobs != []
        invariant Ok(W()) && Unwinding(w, W(), t, trigger) && t in txns
        decreases |txns[t].jobs|
      {
        ghost var v := W();
        UnwindGives(w, v, t, trigger);
        var j := txns[t].jobs[0];
        if !Completed(jobs[j].status) {
          assert jobs[j].cancelled;
          FinishSync(j);
          UnwindPoll(w, v, W(), t, trigger);
        }
        ghost var u := W();
        UnwindNext(w, u, t, trigger, j);
        FinalizeSingle(j);
        UnwindFinal(w, u, W(), t, trigger, j);
      }
    }

    static lemma UnwindStart(w: World, t: TxnId, trigger: JobId)
      requires Ok(w) && AbortReady(w, t, trigger)
      ensures Unwinding(w, w, t, trigger)
    {
      PollSelf(w);
      MembersExist(w, t);
    }

    static lemma UnwindGives(w: World, v: World, t: TxnId, trigger: JobId)
      requires AbortReady(w, t, trigger) && Unwinding(w, v, t, trigger) && Linked(v)
      ensures t in v.txns && v.txns[t].busy && v.txns[t].aborting
      ensures forall i :: i in v.txns[t].jobs ==> i in v.jobs && v.jobs[i].txn == Some(t)
      ensures v.txns[t].jobs != [] ==>
                v.jobs[v.txns[t].jobs[0]].cancelled || Completed(v.jobs[v.txns[t].jobs[0]].status)
    {
      MembersExist(v, t);
      if v.txns[t].jobs != [] {
        var j := v.txns[t].jobs[0];
        assert JobOk(v.jobs[j]) && BusyMove(w.jobs[j], v.jobs[j]);
      }
    }

    static lemma UnwindPoll(w: World, v: World, u: World, t: TxnId, trigger: JobId)
      requires Linked(w) && Ok(v) && AbortReady(w, t, trigger) && Unwinding(w, v, t, trigger) && PollWorld(v, u)
      ensures Unwinding(w, u, t, trigger) && t in v.txns && t in u.txns && u.txns[t] == v.txns[t]
    {
      hide Linked, Phase, BusySame, BusyMove;
      LaterTrans(w, v, u);
      BusyWeaker(v, u, Some(t));
      BusyTrans(w, v, u, Some(t));
      MembersMove(v, u, t);
      forall i | i in u.txns[t].jobs ensures i in w.jobs && i in u.jobs && BusyMove(w.jobs[i], u.jobs[i]) {
        BusyMoves(w.jobs[i], v.jobs[i], u.jobs[i]);
      }
    }

    static lemma UnwindNext(w: World, u: World, t: TxnId, trigger: JobId, j: JobId)
      requires AbortReady(w, t, trigger) && Unwinding(w, u, t, trigger) && Linked(u)
      requires j in u.txns[t].jobs && j in u.jobs && Completed(u.jobs[j].status)
      ensures Finalisable(u, j) && u.jobs[j].txn == Some(t) && EndOf(u.jobs[j]) == AbortEnd(w, trigger, j)
    {
      MembersExist(u, t);
      assert BusyMove(w.jobs[j], u.jobs[j]);
      assert JobOk(u.jobs[j]);
    }

    static lemma UnwindFinal(w: World, u: World, v: World, t: TxnId, trigger: JobId, j: JobId)
      requires Linked(w) && Ok(u) && AbortReady(w, t, trigger) && Unwinding(w, u, t, trigger)
      requires j in u.txns[t].jobs && Finalisable(u, j) && u.jobs[j].txn == Some(t)
      requires EndOf(u.jobs[j]) == AbortEnd(w, trigger, j) && Ok(v) && Finalised(u, v, j)
      ensures Unwinding(w, v, t, trigger) && t in v.txns && |v.txns[t].jobs| < |u.txns[t].jobs|
    {
      hide Linked, Phase, EndOf, Fated, BusyMove, AbortEnd, Finalisable, NoDup, BusySame;
      MembersExist(u, t);
      UnwindLater(w, u, v, t);
      forall i | i in v.txns[t].jobs ensures i in w.jobs && i in v.jobs && BusyMove(w.jobs[i], v.jobs[i]) {
        BusyMoves(w.jobs[i], u.jobs[i], v.jobs[i]);
      }
      assert forall i :: i in u.ends && u.ends[i] != [] ==> i in v.ends && v.ends[i] == u.ends[i];
    }

    static lemma UnwindLater(w: World, u: World, v: World, t: TxnId)
      requires Linked(w) && Linked(u) && Later(w, u) && Later(u, v) && BusySame(w, u, Some(t))
      requires BusySame(u, v, Some(t))
      ensures Later(w, v) && BusySame(w, v, Some(t))
    {
      hide Linked, BusySame;
      LaterTrans(w, u, v);
      BusyTrans(w, u, v, Some(t));
    }

    static ghost predicate OthersInPhase(w: World, t: TxnId) {
      forall u :: u in w.txns && u != t ==> Phase(w, u)
    }

    /** Where job_completed_txn_abort_locked may be called from: its job has failed, or
        is cancelled by force, or was pending when another job's preparation failed. */
    static ghost predicate AbortEntry(w: World, j: JobId, t: TxnId) {
      && Linked(w) && j in w.jobs && w.jobs[j].txn == Some(t) && t in w.txns && OthersInPhase(w, t)
      && (w.txns[t].aborting ==> Phase(w, t))
      && (!w.txns[t].aborting ==>
            && (Completed(w.jobs[j].status) || w.jobs[j].force)
            && (!Fated(w.jobs[j]) ==> w.jobs[j].status == Pending))
    }

    /** Every job has been finalised once: all but the trigger through job_abort, and
        so the trigger unless its own result is 0 and it is not cancelled by force. */
    static ghost predicate TxnAborted(w: World, v: World, j: JobId, t: TxnId)
      requires j in w.jobs && t in w.txns
    {
      && Later(w, v) && BusySame(w, v, Some(t))
      && (forall i :: i in w.txns[t].jobs ==> i in v.ends && v.ends[i] == [AbortEnd(w, j, i)])
      && (t in v.txns ==> v.txns[t].jobs == [] && !v.txns[t].busy)
    }

    /** job_completed_txn_abort_locked. */
    method TxnAbort(j: JobId, ghost t: TxnId)
      requires AbortEntry(W(), j, t)
      modifies this
      ensures Ok(W())
      ensures old(txns)[t].aborting ==> W() == old(W())
      ensures !old(txns)[t].aborting ==> TxnAborted(old(W()), W(), j, t)
    {
      hide Linked, Phase, Later, BusySame, Unwound, TxnAborted, OthersInPhase;
      ghost var w := W();
      var x := jobs[j].txn.value;
      if txns[x].aborting {
        AbortingOk(w, t);
        return;
      }
      MarkKeeps(w, j, t);
      txns := txns[x := txns[x].(aborting := true, busy := true, refcnt := txns[x].refcnt + 1)];
      assert W() == Marked(w, t);
      Unwind(j, x);
      ghost var w5 := W();
      UnwoundGives(Marked(w, t), w5, j, t);
      txns := txns[x := txns[x].(busy := false)];
      TxnUnref(x);
      assert W() == Unmarked(w5, t);
      UnmarkKeeps(w, w5, j, t);
    }

    static lemma AbortingOk(w: World, t: TxnId)
      requires Linked(w) && t in w.txns && Phase(w, t) && OthersInPhase(w, t)
      ensures Ok(w)
    {
    }

    /** An aborting transaction before anybody was cancelled. */
    static ghost predicate Marching(w: World, j: JobId, t: TxnId) {
      && Linked(w) && OthersInPhase(w, t) && j in w.jobs && w.jobs[j].txn == Some(t) && t in w.txns
      && j in w.txns[t].jobs
      && w.txns[t].busy && w.txns[t].aborting && w.txns[t].refcnt > |w.txns[t].jobs|
      && (Completed(w.jobs[j].status) || w.jobs[j].force) && (!Fated(w.jobs[j]) ==> w.jobs[j].status == Pending)
    }

    static ghost predicate Unwound(w: World, v: World, j: JobId, t: TxnId)
      requires j in w.jobs && t in w.txns
    {
      && Later(w, v) && BusySame(w, v, Some(t)) && t in v.txns && v.txns[t].jobs == []
      && (forall i :: i in w.txns[t].jobs ==> i in v.ends && v.ends[i] == [AbortEnd(w, j, i)])
    }

    static lemma UnwoundGives(w: World, v: World, j: JobId, t: TxnId)
      requires j in w.jobs && t in w.txns && Unwound(w, v, j, t)
      ensures t in v.txns && v.txns[t].jobs == []
    {
    }

    method Unwind(j: JobId, t: TxnId)
      requires Marching(W(), j, t)
      modifies this
      ensures Ok(W()) && Unwound(old(W()), W(), j, t)
    {
      hide Linked, Phase, Later, BusySame, Unwinding, Unreffed, StayWorld, OthersCancelled, AbortReady, Unwound,
           OthersInPhase;
      ghost var w := W();
      RefHeld(w, j);
      RefLinked(w, j, 1);
      Ref(j);
      ghost var w2 := W();
      CancelOthers(t, j);
      ghost var w3 := W();
      AllCancelled(w, w2, w3, j, t);
      FinishAll(t, j);
      ghost var w4 := W();
      TriggerLeft(w, w2, w3, w4, j, t);
      Unref(j);
      UnwoundThen(w, w2, w4, W(), j, t);
    }

    static lemma RefHeld(w: World, j: JobId)
      requires Linked(w) && j in w.jobs && w.jobs[j].txn.Some?
      ensures Held(w.jobs[j]) >= 0 && w.jobs[j].refcnt >= 1
    {
      assert JobOk(w.jobs[j]);
    }

    static function Marked(w: World, t: TxnId): World
      requires t in w.txns
    {
      w.(txns := w.txns[t := w.txns[t].(aborting := true, busy := true, refcnt := w.txns[t].refcnt + 1)])
    }

    static function Unmarked(w: World, t: TxnId): World
      requires t in w.txns
    {
      w.(txns := if w.txns[t].refcnt == 1 then w.txns - {t}
                 else w.txns[t := w.txns[t].(busy := false, refcnt := w.txns[t].refcnt - 1)])
    }

    static lemma MarkKeeps(w: World, j: JobId, t: TxnId)
      requires AbortEntry(w, j, t)
      requires !w.txns[t].aborting
      ensures Marching(Marked(w, t), j, t)
      ensures Later(w, Marked(w, t)) && BusySame(w, Marked(w, t), Some(t))
    {
      hide JobOk, Linked, Phase, Later, BusySame;
      var v := Marked(w, t);
      MarkLinked(w, j, t);
      MarkBusy(w, t);
      forall u | u in v.txns && u != t ensures Phase(v, u) {
        MarkPhase(w, t, u);
      }
    }

    static lemma MarkLinked(w: World, j: JobId, t: TxnId)
      requires Linked(w) && j in w.jobs && w.jobs[j].txn == Some(t) && t in w.txns
      ensures Linked(Marked(w, t)) && Later(w, Marked(w, t))
      ensures j in w.txns[t].jobs && w.txns[t].refcnt >= |w.txns[t].jobs|
    {
      hide JobOk;
      var v := Marked(w, t);
      assert JobIn(w, j) && TxnIn(w, t);
      forall i | i in v.jobs ensures JobIn(v, i) {
        assert JobIn(w, i);
      }
      forall u | u in v.txns ensures TxnIn(v, u) {
        assert TxnIn(w, u);
      }
    }

    static lemma MarkPhase(w: World, t: TxnId, u: TxnId)
      requires t in w.txns && u in w.txns && u != t && Phase(w, u)
      ensures Phase(Marked(w, t), u)
    {
      hide Ripe, Doomed, Calm, InStep;
    }

    static lemma MarkBusy(w: World, t: TxnId)
      requires Linked(w) && t in w.txns
      ensures BusySame(w, Marked(w, t), Some(t))
    {
      hide JobOk, JobIn;
      forall u | u in w.txns ensures TxnIn(w, u) {
      }
    }

    /** With everybody cancelled the transaction is ready to unwind. */
    static lemma AllCancelled(w: World, w2: World, w3: World, j: JobId, t: TxnId)
      requires Marching(w, j, t) && w2 == Put(w, j, w.jobs[j].(refcnt := w.jobs[j].refcnt + 1))
      requires Linked(w2) && Linked(w3) && StayWorld(w2, w3) && OthersCancelled(w2, w3, t, j, |w2.txns[t].jobs|)
      ensures Ok(w3) && AbortReady(w3, t, j) && Later(w2, w3) && BusySame(w2, w3, Some(t))
      ensures w3.txns[t].jobs == w.txns[t].jobs && EndOf(w3.jobs[j]) == EndOf(w.jobs[j])
    {
      hide Linked, StayMove, Later, BusySame, Phase;
      MembersExist(w2, t);
      assert CoMove(w2.jobs[j], w3.jobs[j]);
      CoSameFate(w2.jobs[j], w3.jobs[j]);
      OthersForced(w2, w3, j, t);
      assert OthersInPhase(w2, t) by {
        forall u | u in w2.txns && u != t ensures Phase(w2, u) {
          assert Phase(w, u);
          PutPhase(w, j, w2.jobs[j], u);
        }
      }
      AllCancelledOk(w2, w3, j, t);
      AllCancelledLater(w2, w3, j, t);
    }

    static lemma OthersForced(w2: World, w3: World, j: JobId, t: TxnId)
      requires t in w2.txns && StayWorld(w2, w3) && OthersCancelled(w2, w3, t, j, |w2.txns[t].jobs|)
      requires forall i :: i in w2.txns[t].jobs ==> i in w2.jobs
      ensures forall i :: i in w2.txns[t].jobs && i != j ==> i in w3.jobs && w3.jobs[i].force
    {
      forall i | i in w2.txns[t].jobs && i != j ensures i in w3.jobs && w3.jobs[i].force {
        var k :| 0 <= k < |w2.txns[t].jobs| && w2.txns[t].jobs[k] == i;
      }
    }

    static lemma CoSameFate(a: Job, b: Job)
      requires CoMove(a, b) && (Completed(a.status) || a.force)
      ensures Fated(a) == Fated(b) && b.force == a.force && b.txn == a.txn
      ensures Completed(a.status) ==> b.status == a.status
    {
    }

    static lemma AllCancelledOk(w2: World, w3: World, j: JobId, t: TxnId)
      requires Linked(w2) && Linked(w3) && t in w2.txns && w2.txns[t].busy && w2.txns[t].aborting
      requires OthersInPhase(w2, t)
      requires StayWorld(w2, w3) && OthersCancelled(w2, w3, t, j, |w2.txns[t].jobs|)
      requires j in w3.jobs && w3.jobs[j].txn == Some(t) && (Completed(w3.jobs[j].status) || w3.jobs[j].force)
      requires forall i :: i in w3.txns[t].jobs && i != j ==> i in w3.jobs && w3.jobs[i].force
      ensures Ok(w3)
    {
      hide CoMove, StayMove;
      forall u | u in w3.txns ensures Phase(w3, u) {
        assert TxnIn(w2, u) && TxnIn(w3, u);
        if u == t {
          forall i | i in w3.txns[t].jobs && i in w3.jobs ensures Doomed(w3.jobs[i]) {
            assert JobOk(w3.jobs[i]);
          }
        } else {
          assert TxnIn(w2, t) && Phase(w2, u);
          PhaseMoves(w2, w3, u);
        }
      }
    }

    static lemma AllCancelledLater(w2: World, w3: World, j: JobId, t: TxnId)
      requires Linked(w2) && t in w2.txns && j in w2.jobs
      requires StayWorld(w2, w3) && OthersCancelled(w2, w3, t, j, |w2.txns[t].jobs|)
      ensures Later(w2, w3) && BusySame(w2, w3, Some(t))
    {
      hide CoMove, StayMove, Later, BusySame;
      forall i | i in w2.jobs && w2.jobs[i].txn != Some(t) ensures CoMove(w2.jobs[i], w3.jobs[i]) {
        assert TxnIn(w2, t);
      }
      StayLater(w2, w3, Some(t));
    }

    /** The trigger is out of the transaction, and still referenced. */
    static lemma TriggerLeft(w: World, w2: World, w3: World, w4: World, j: JobId, t: TxnId)
      requires Linked(w2) && Linked(w3) && AbortReady(w3, t, j) && Unwinding(w3, w4, t, j) && Ok(w4)
      requires w4.txns[t].jobs == [] && Later(w2, w3) && BusySame(w2, w3, Some(t))
      requires j in w.jobs && j in w2.jobs && w.jobs[j].txn == Some(t) && t in w.txns && j in w.txns[t].jobs
      requires w3.txns[t].jobs == w.txns[t].jobs && EndOf(w3.jobs[j]) == EndOf(w.jobs[j]) && Held(w2.jobs[j]) >= 1
      ensures j in w4.jobs && w4.jobs[j].txn == None && Held(w4.jobs[j]) >= 1
      ensures Later(w2, w4) && BusySame(w2, w4, Some(t)) && t in w4.txns
      ensures forall i :: i in w.txns[t].jobs ==> i in w4.ends && w4.ends[i] == [AbortEnd(w, j, i)]
    {
      hide BusySame, BusyMove, Phase, EndOf, Fated, JobOk, CoMove;
      UnwindLater(w2, w3, w4, t);
      assert JobIn(w4, j);
    }

    static lemma UnmarkStep(w: World, t: TxnId)
      requires Ok(w) && t in w.txns && w.txns[t].jobs == []
      ensures Ok(Unmarked(w, t)) && Later(w, Unmarked(w, t)) && BusySame(w, Unmarked(w, t), Some(t))
      ensures t in Unmarked(w, t).txns ==> Unmarked(w, t).txns[t].jobs == [] && !Unmarked(w, t).txns[t].busy
    {
      hide JobOk, Linked, BusySame, Phase, Later;
      UnmarkLinked(w, t);
      UnmarkBusy(w, t);
      forall u | u in Unmarked(w, t).txns ensures Phase(Unmarked(w, t), u) {
        UnmarkPhase(w, t, u);
      }
    }

    static lemma UnmarkLinked(w: World, t: TxnId)
      requires Linked(w) && t in w.txns && w.txns[t].jobs == []
      ensures Linked(Unmarked(w, t)) && Later(w, Unmarked(w, t))
    {
      hide JobOk;
      var v := Unmarked(w, t);
      assert TxnIn(w, t);
      forall i | i in v.jobs ensures JobIn(v, i) {
        assert JobIn(w, i);
      }
      forall u | u in v.txns ensures TxnIn(v, u) {
        assert TxnIn(w, u);
      }
    }

    static lemma UnmarkPhase(w: World, t: TxnId, u: TxnId)
      requires t in w.txns && w.txns[t].jobs == [] && u in Unmarked(w, t).txns && Phase(w, u)
      ensures Phase(Unmarked(w, t), u)
    {
      hide Ripe, Doomed, Calm, InStep;
    }

    static lemma UnmarkBusy(w: World, t: TxnId)
      requires Linked(w) && t in w.txns
      ensures BusySame(w, Unmarked(w, t), Some(t))
    {
      hide JobOk, JobIn;
      forall u | u in w.txns ensures TxnIn(w, u) {
      }
    }

    static lemma UnwoundThen(w: World, w2: World, w4: World, v: World, j: JobId, t: TxnId)
      requires Linked(w) && j in w.jobs && t in w.txns && w.jobs[j].txn == Some(t)
      requires w2 == Put(w, j, w.jobs[j].(refcnt := w.jobs[j].refcnt + 1)) && Linked(w2)
      requires Ok(w4) && Later(w2, w4) && BusySame(w2, w4, Some(t)) && t in w4.txns && w4.txns[t].jobs == []
      requires j in w4.jobs && w4.jobs[j].txn == None && Held(w4.jobs[j]) >= 1
      requires Unreffed(w4, v, j) && Linked(v)
      requires forall i :: i in w.txns[t].jobs ==> i in w4.ends && w4.ends[i] == [AbortEnd(w, j, i)]
      ensures Ok(v) && Unwound(w, v, j, t)
    {
      hide Linked, Phase, Later, BusySame, AbortEnd;
      UnreffedPhases(w4, v, j);
      Bracket(w, w2, w4, v, j, Some(t));
    }

    static lemma UnmarkKeeps(w: World, w5: World, j: JobId, t: TxnId)
      requires Linked(w) && j in w.jobs && t in w.txns && Linked(Marked(w, t)) && Ok(w5)
      requires Later(w, Marked(w, t)) && BusySame(w, Marked(w, t), Some(t)) && Unwound(Marked(w, t), w5, j, t)
      ensures Ok(Unmarked(w5, t)) && TxnAborted(w, Unmarked(w5, t), j, t)
    {
      hide Linked, Phase, Later, BusySame;
      UnmarkStep(w5, t);
      UnwindLater(w, Marked(w, t), w5, t);
      UnwindLater(w, w5, Unmarked(w5, t), t);
    }
  }
}
