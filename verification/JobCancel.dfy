/** Cancelling, finalising and dismissing on request, and what goes wrong when a job
    that was never started is cancelled softly. */
module JobCancel {
  import opened Options
  import opened Seqs
  import opened Jobs
  import opened JobManager
  import opened JobOps

  lemma PollTrans(u: World, v: World, w: World)
    requires Linked(u) && PollWorld(u, v) && PollWorld(v, w)
    ensures PollWorld(u, w)
  {
    hide Linked, Phase, Later, BusySame;
    LaterTrans(u, v, w);
    BusyTrans(u, v, w, None);
  }

  lemma CoIsPoll(w: World, v: World)
    requires Ok(w) && CoWorld(w, v)
    ensures PollWorld(w, v)
  {
    hide Linked, Phase, Later, BusySame, CoMove;
    CoKeepsLinked(w, v);
  }

  /** Whether job_enter_cond_locked finds a coroutine that sleeps and may be woken. */
  predicate Enterable(b: Job) {
    b.co != NoCo && !b.deferred && !b.busy
  }

  /** `v` is `w` after an attempt to wake `j`: the lock is dropped only for a wake-up. */
  ghost predicate Entered(w: World, v: World, j: JobId, cond: bool) {
    if j in w.jobs && Enterable(w.jobs[j]) && cond then CoWorld(Put(w, j, w.jobs[j].(busy := true)), v) else v == w
  }

  /** job_enter_cond_locked. */
  method EnterCond(m: Manager, j: JobId, cond: bool)
    requires Ok(m.W()) && j in m.jobs
    modifies m
    ensures PollWorld(old(m.W()), m.W()) && Entered(old(m.W()), m.W(), j, cond)
  {
    hide Linked, Phase, Later, BusySame, PollWorld, CoWorld;
    ghost var w := m.W();
    Manager.PollSelf(w);
    if m.jobs[j].co == NoCo || m.jobs[j].deferred || m.jobs[j].busy || !cond {
      return;
    }
    BusyFlag(w, j);
    m.jobs := m.jobs[j := m.jobs[j].(busy := true)];
    ghost var w1 := m.W();
    PollGives(w, w1);
    var _ := m.Short();
    CoIsPoll(w1, m.W());
    PollTrans(w, w1, m.W());
  }

  lemma BusyFlag(w: World, j: JobId)
    requires Ok(w) && j in w.jobs
    ensures PollWorld(w, Put(w, j, w.jobs[j].(busy := true)))
  {
    assert JobOk(w.jobs[j]);
    PutSameView(w, j, w.jobs[j].(busy := true));
  }

  /** A soft request to a job that was never started, answered softly: only a driver of
      another kind than backup, mirror and commit does that. */
  predicate Forbidden(b: Job, force: bool, answer: int) {
    b.status == Created && !b.force && !force && b.cfg.cancel == OtherCancel && answer == 0
  }

  /** job_cancel_locked. A job that was never started and whose driver answers a soft
      request softly would be sent from Created to Waiting: that is `forbidden`. */
  method Cancel(m: Manager, j: JobId, force: bool)
    returns (forbidden: bool, ghost mid: World, ghost eff: bool, ghost asked: Status)
    requires Ok(m.W()) && j in m.jobs && m.jobs[j].status != Null
    requires m.jobs[j].txn.Some? && m.jobs[j].txn.value in m.txns ==> !m.txns[m.jobs[j].txn.value].busy
    modifies m
    ensures !forbidden ==> PollWorld(old(m.W()), m.W())
    ensures forbidden <==> Forbidden(old(m.jobs[j]), force, Manager.Answer(old(m.script)))
    ensures forbidden ==> j in m.jobs && !Fated(m.jobs[j]) && !Stt(m.jobs[j].status, Waiting)
                          && m.jobs[j].cfg == old(m.jobs[j]).cfg
    ensures eff == Manager.Forces(old(m.jobs[j]).cfg.cancel, force, asked, Manager.Answer(old(m.script)))
    ensures old(m.jobs[j]).co == NoCo || Completed(old(m.jobs[j]).status) ==> asked == old(m.jobs[j]).status
    ensures old(m.jobs[j]).status != Concluded ==>
              && CancelWorld(old(m.W()), mid, j, eff) && j in mid.jobs && Cancels(old(m.jobs[j]), mid.jobs[j], eff)
              && old(m.jobs[j]).txn.Some? && old(m.jobs[j]).txn.value in old(m.txns)
              && CancelOutcome(mid, m.W(), j, old(m.jobs[j]).txn.value)
  {
    hide Linked, Phase, Later, BusySame, PollWorld, CancelWorld, Cancels;
    ghost var w := m.W();
    forbidden, mid, asked := false, w, m.jobs[j].status;
    eff := Manager.Forces(m.jobs[j].cfg.cancel, force, asked, Manager.Answer(m.script));
    if m.jobs[j].status == Concluded {
      DismissLocked(m, j);
      return;
    }
    ghost var t := CancelTxn(w, j);
    var took;
    took, asked := m.CancelAsync(j, force);
    eff := took;
    ghost var w1 := m.W();
    mid := w1;
    CancelledThen(w, w1, j, t, eff);
    if m.jobs[j].co == NoCo {
      if !Fated(m.jobs[j]) {
        forbidden := true;
        return;
      }
      CompletedLocked(m, j, t);
      CancelDone(w, w1, m.W());
      assert AllAborted(w1, m.W(), t);
    } else if m.jobs[j].deferred {
      if m.jobs[j].force {
        m.TxnAbort(j, t);
        CancelAborted(w, w1, m.W(), j, t);
      } else {
        CancelDone(w, w1, w1);
      }
    } else {
      EnterCond(m, j, true);
      PollGives(w1, m.W());
      CancelDone(w, w1, m.W());
    }
  }

  ghost predicate AllAborted(w: World, v: World, t: TxnId)
    requires t in w.txns
  {
    forall i :: i in w.txns[t].jobs ==> i in v.ends && v.ends[i] == [Aborted]
  }

  /** After the flags are set: a job that was never started completes at once, one that
      has ended aborts its transaction if cancelled by force, any other is woken. */
  ghost predicate CancelOutcome(mid: World, v: World, j: JobId, t: TxnId) {
    && j in mid.jobs && t in mid.txns
    && if mid.jobs[j].co == NoCo then (if Fated(mid.jobs[j]) then AllAborted(mid, v, t) else v == mid)
       else if mid.jobs[j].deferred then (if mid.jobs[j].force then AllAborted(mid, v, t) else v == mid)
       else Entered(mid, v, j, true)
  }

  lemma CancelTxn(w: World, j: JobId) returns (t: TxnId)
    requires Linked(w) && j in w.jobs && w.jobs[j].status != Null && w.jobs[j].status != Concluded
    ensures w.jobs[j].txn == Some(t) && t in w.txns && j in w.txns[t].jobs
  {
    assert JobOk(w.jobs[j]) && JobIn(w, j);
    t := w.jobs[j].txn.value;
  }

  /** After the flags are set: in a calm transaction a job that is not completed, or
      not cancelled by force, leaves everything in order. */
  lemma CancelledThen(w: World, w1: World, j: JobId, t: TxnId, eff: bool)
    requires Ok(w) && j in w.jobs && w.jobs[j].txn == Some(t) && t in w.txns && j in w.txns[t].jobs && !w.txns[t].busy
    requires Linked(w1) && CancelWorld(w, w1, j, eff)
    ensures j in w1.jobs && w1.jobs[j].txn == Some(t) && t in w1.txns && !w1.txns[t].busy && !w1.txns[t].aborting
    ensures Later(w, w1) && BusySame(w, w1, None)
    ensures !Completed(w1.jobs[j].status) || !w1.jobs[j].force ==> Ok(w1)
    ensures w1.jobs[j].co == NoCo <==> w.jobs[j].status == Created
    ensures w1.jobs[j].co == NoCo ==> w1.jobs[j].status == Created && w1.jobs[j].ret == 0
    ensures w1.jobs[j].co != NoCo && !w1.jobs[j].deferred ==> !Completed(w1.jobs[j].status)
    ensures w1.jobs[j].force == (w.jobs[j].force || eff) && w1.jobs[j].cfg == w.jobs[j].cfg
    ensures w.jobs[j].status == Created ==> w.jobs[j].co == NoCo
    ensures w1.jobs[j].force ==> Manager.AbortEntry(w1, j, t)
  {
    CancelledJob(w, w1, j, t, eff);
    CancelledMoves(w, w1, j, t, eff);
    CancelledPhases(w, w1, j, t, eff);
  }

  lemma CancelledJob(w: World, w1: World, j: JobId, t: TxnId, eff: bool)
    requires Ok(w) && j in w.jobs && w.jobs[j].txn == Some(t) && t in w.txns && j in w.txns[t].jobs && !w.txns[t].busy
    requires CancelWorld(w, w1, j, eff)
    ensures j in w1.jobs && w1.jobs[j].txn == Some(t) && w1.jobs[j].force == (w.jobs[j].force || eff)
    ensures !w.txns[t].aborting
    ensures w1.jobs[j].cfg == w.jobs[j].cfg && (w.jobs[j].status == Created ==> w.jobs[j].co == NoCo)
    ensures w1.jobs[j].co == NoCo <==> w.jobs[j].status == Created
    ensures w1.jobs[j].co == NoCo ==> w1.jobs[j].status == Created && w1.jobs[j].ret == 0
    ensures w1.jobs[j].co != NoCo && !w1.jobs[j].deferred ==> !Completed(w1.jobs[j].status)
  {
    assert JobOk(w.jobs[j]) && JobOk(w1.jobs[j]) && Phase(w, t) && Calm(w.jobs[j]);
  }

  lemma CancelledMoves(w: World, w1: World, j: JobId, t: TxnId, eff: bool)
    requires Linked(w) && j in w.jobs && w.jobs[j].txn == Some(t) && t in w.txns && !w.txns[t].busy
    requires CancelWorld(w, w1, j, eff)
    ensures Later(w, w1) && BusySame(w, w1, None)
  {
    hide Linked, Later, BusySame, CoMove, StayMove;
    forall i | i in w.jobs ensures StayMove(w.jobs[i], w1.jobs[i]) {
      if i != j {
        CoIsStay(w.jobs[i], w1.jobs[i]);
      }
    }
    StayLater(w, w1, Some(t));
    NotBusy(w, w1, t);
  }

  lemma CancelledPhases(w: World, w1: World, j: JobId, t: TxnId, eff: bool)
    requires Ok(w) && j in w.jobs && w.jobs[j].txn == Some(t) && t in w.txns && !w.txns[t].busy
    requires Linked(w1) && CancelWorld(w, w1, j, eff)
    ensures Manager.OthersInPhase(w1, t)
    ensures !Completed(w1.jobs[j].status) || !w1.jobs[j].force ==> Ok(w1)
  {
    forall u | u in w1.txns && u != t ensures Phase(w1, u) {
      hide CoMove, CancelMove, JobOk;
      assert TxnIn(w, u) && Phase(w, u);
      PhaseMoves(w, w1, u);
    }
    if !Completed(w1.jobs[j].status) || !w1.jobs[j].force {
      CancelledPhase(w, w1, j, t, eff);
    }
  }

  lemma CancelledPhase(w: World, w1: World, j: JobId, t: TxnId, eff: bool)
    requires Ok(w) && j in w.jobs && w.jobs[j].txn == Some(t) && t in w.txns && !w.txns[t].busy
    requires CancelWorld(w, w1, j, eff) && (!Completed(w1.jobs[j].status) || !w1.jobs[j].force)
    ensures Phase(w1, t)
  {
    hide CoMove, CancelMove, JobOk, Linked;
    forall i | i in w.jobs
      ensures Completed(w1.jobs[i].status) == Completed(w.jobs[i].status)
      ensures Completed(w.jobs[i].status) ==> w1.jobs[i].status == w.jobs[i].status
      ensures i != j ==> w1.jobs[i].force == w.jobs[i].force
    {
      CancelledView(w, w1, j, i, eff);
    }
    assert Phase(w, t);
  }

  lemma CancelledView(w: World, w1: World, j: JobId, i: JobId, eff: bool)
    requires Linked(w) && CancelWorld(w, w1, j, eff) && i in w.jobs
    ensures Completed(w1.jobs[i].status) == Completed(w.jobs[i].status)
    ensures Completed(w.jobs[i].status) ==> w1.jobs[i].status == w.jobs[i].status
    ensures i != j ==> w1.jobs[i].force == w.jobs[i].force
  {
    assert JobOk(w.jobs[i]);
  }

  lemma CancelDone(w: World, w1: World, v: World)
    requires Linked(w) && Linked(w1) && Later(w, w1) && BusySame(w, w1, None)
    requires Ok(v) && ((v == w1) || (Later(w1, v) && BusySame(w1, v, None)))
    ensures PollWorld(w, v)
  {
    hide Linked, Phase, Later, BusySame;
    if v != w1 {
      LaterTrans(w, w1, v);
      BusyTrans(w, w1, v, None);
    }
  }

  lemma CancelAborted(w: World, w1: World, v: World, j: JobId, t: TxnId)
    requires Linked(w) && Linked(w1) && Later(w, w1) && BusySame(w, w1, None)
    requires j in w1.jobs && t in w1.txns && !w1.txns[t].busy && Manager.TxnAborted(w1, v, j, t) && Ok(v)
    requires w1.jobs[j].force
    ensures PollWorld(w, v) && AllAborted(w1, v, t)
  {
    hide Linked, Phase, Later, BusySame;
    NotBusy(w1, v, t);
    CancelDone(w, w1, v);
  }

  /** job_do_dismiss_locked on a concluded job. */
  method DismissLocked(m: Manager, j: JobId)
    requires Ok(m.W()) && j in m.jobs && m.jobs[j].status == Concluded
    modifies m
    ensures PollWorld(old(m.W()), m.W()) && Unreffed(Put(old(m.W()), j, Dismissal(old(m.jobs[j]))), m.W(), j)
  {
    hide Linked, Phase, Later, BusySame, Unreffed, PollWorld;
    ghost var w := m.W();
    DismissalKeeps(w, j);
    m.DoDismiss(j);
    DismissDone(w, m.W(), j);
  }

  lemma DismissalKeeps(w: World, j: JobId)
    requires Ok(w) && j in w.jobs && w.jobs[j].status == Concluded
    ensures w.jobs[j].txn == None && w.jobs[j].refcnt >= 1
    ensures Manager.Dismissed(w, j) == Put(w, j, Dismissal(w.jobs[j])) && Ok(Put(w, j, Dismissal(w.jobs[j])))
  {
    var b := Dismissal(w.jobs[j]);
    assert JobOk(w.jobs[j]);
    PutLinked(w, j, b);
    forall u | u in w.txns ensures Phase(Put(w, j, b), u) {
      PutPhase(w, j, b, u);
    }
  }

  lemma DismissDone(w: World, v: World, j: JobId)
    requires Ok(w) && j in w.jobs && w.jobs[j].status == Concluded && w.jobs[j].txn == None && w.jobs[j].refcnt >= 1
    requires Ok(Put(w, j, Dismissal(w.jobs[j]))) && Unreffed(Put(w, j, Dismissal(w.jobs[j])), v, j) && Linked(v)
    ensures PollWorld(w, v)
  {
    var u := Put(w, j, Dismissal(w.jobs[j]));
    hide Linked, Phase, Later, Unreffed, BusySame;
    UnreffedPhases(u, v, j);
    UnreffedBusy(u, v, j, None);
    PutBusy(w, j, u.jobs[j], None);
    BusyTrans(w, u, v, None);
    DroppedLater(w, u, v, j);
  }

  /** A dismissed job may go, and nobody else is touched. */
  lemma DroppedLater(w: World, u: World, v: World, j: JobId)
    requires j in w.jobs && w.jobs[j].status != Null && w.jobs[j].refcnt >= 1 && Linked(u)
    requires u.jobs == w.jobs[j := Dismissal(w.jobs[j])] && u.ends == w.ends && Unreffed(u, v, j)
    ensures Later(w, v)
  {
    hide CoMove, JobOk, LaterJob, Linked, Held, Dismissal;
    UnreffedLater(u, v, j);
    DroppedJob(w.jobs[j]);
    forall i | i in w.jobs && i in v.jobs ensures LaterJob(w.jobs[i], v.jobs[i]) {
      assert i != j ==> u.jobs[i] == w.jobs[i];
    }
    forall i | i in v.jobs && i in w.ends ensures i in w.jobs {
      assert i in u.jobs;
    }
  }

  lemma DroppedJob(a: Job)
    requires a.status != Null && a.refcnt >= 1
    ensures var b := Dismissal(a);
            && b.refcnt == a.refcnt && (Held(a) > 0 ==> b.refcnt != 1)
            && (b.refcnt != 1 ==> LaterJob(a, b.(refcnt := b.refcnt - 1)))
  {
  }

  // ---------------------------------------------------------------------------
  // Requests from the monitor.

  /** job_user_cancel_locked. */
  method UserCancel(m: Manager, j: JobId, force: bool) returns (refused: bool, forbidden: bool)
    requires Ok(m.W()) && j in m.jobs
    requires m.jobs[j].txn.Some? && m.jobs[j].txn.value in m.txns ==> !m.txns[m.jobs[j].txn.value].busy
    modifies m
    ensures refused <==> !Accepts(CancelVerb, old(m.jobs[j]).status)
    ensures refused ==> m.W() == old(m.W())
    ensures !forbidden ==> PollWorld(old(m.W()), m.W())
    ensures forbidden <==> Forbidden(old(m.jobs[j]), force, Manager.Answer(old(m.script)))
    ensures forbidden ==> j in m.jobs && !Fated(m.jobs[j]) && !Stt(m.jobs[j].status, Waiting)
                          && m.jobs[j].cfg == old(m.jobs[j]).cfg
    ensures !refused && (force || old(m.jobs[j]).cfg.cancel != OtherCancel)
              && old(m.jobs[j]).status in {Created, Waiting, Pending} ==>
              && old(m.jobs[j]).txn.Some? && old(m.jobs[j]).txn.value in old(m.txns)
              && AllAborted(old(m.W()), m.W(), old(m.jobs[j]).txn.value)
  {
    hide Linked, Phase, Later, BusySame, PollWorld, CancelWorld, CancelOutcome, AllAborted, Cancels;
    ghost var w := m.W();
    refused, forbidden := !Accepts(CancelVerb, m.jobs[j].status), false;
    Manager.PollSelf(w);
    if !refused {
      ghost var mid, eff, asked;
      if w.jobs[j].status == Created {
        NotStarted(w, j);
      }
      forbidden, mid, eff, asked := Cancel(m, j, force);
      if eff && w.jobs[j].status in {Created, Waiting, Pending} {
        CancelEndsAll(w, mid, m.W(), j, w.jobs[j].txn.value);
      }
    }
  }

  lemma NotStarted(w: World, j: JobId)
    requires Linked(w) && j in w.jobs && w.jobs[j].status == Created
    ensures w.jobs[j].co == NoCo
  {
    assert JobOk(w.jobs[j]);
  }

  lemma CancelEndsAll(w: World, mid: World, v: World, j: JobId, t: TxnId)
    requires Linked(w) && j in w.jobs && w.jobs[j].status in {Created, Waiting, Pending}
    requires t in w.txns && CancelWorld(w, mid, j, true) && CancelOutcome(mid, v, j, t)
    ensures AllAborted(w, v, t)
  {
    assert JobOk(w.jobs[j]) && JobOk(mid.jobs[j]);
    hide AllAborted, CoMove;
    assert mid.jobs[j].force && (mid.jobs[j].co == NoCo || mid.jobs[j].deferred);
  }

  /** job_finalize_locked. */
  method Finalize(m: Manager, j: JobId) returns (refused: bool, rc: int, ghost bad: JobId)
    requires Ok(m.W()) && j in m.jobs
    requires m.jobs[j].txn.Some? && m.jobs[j].txn.value in m.txns ==> !m.txns[m.jobs[j].txn.value].busy
    modifies m
    ensures refused <==> old(m.jobs[j]).status != Pending
    ensures refused ==> m.W() == old(m.W())
    ensures PollWorld(old(m.W()), m.W())
    ensures !refused ==> old(m.jobs[j]).txn.Some? && old(m.jobs[j]).txn.value in old(m.txns)
                         && TxnFinalised(old(m.W()), m.W(), j, old(m.jobs[j]).txn.value, rc, bad)
                         && rc == FirstFailure(Asked(old(m.jobs), old(m.txns)[old(m.jobs[j]).txn.value].jobs),
                              old(m.script))
  {
    hide Linked, Phase, Later, BusySame, PollWorld, TxnFinalised, FirstFailure, Asked;
    ghost var w := m.W();
    refused, rc, bad := !Accepts(FinalizeVerb, m.jobs[j].status), 0, 0;
    Manager.PollSelf(w);
    if !refused {
      ghost var t := CancelTxn(w, j);
      rc, bad := DoFinalize(m, j, t);
      FinalizedPoll(w, m.W(), j, t, rc, bad);
    }
  }

  lemma FinalizedPoll(w: World, v: World, j: JobId, t: TxnId, rc: int, bad: JobId)
    requires t in w.txns && !w.txns[t].busy && TxnFinalised(w, v, j, t, rc, bad) && Ok(v)
    ensures PollWorld(w, v)
  {
    NotBusy(w, v, t);
  }

  /** job_dismiss_locked. */
  method Dismiss(m: Manager, j: JobId) returns (refused: bool)
    requires Ok(m.W()) && j in m.jobs
    modifies m
    ensures refused <==> old(m.jobs[j]).status != Concluded
    ensures refused ==> m.W() == old(m.W())
    ensures !refused ==> Unreffed(Put(old(m.W()), j, Dismissal(old(m.jobs[j]))), m.W(), j)
    ensures PollWorld(old(m.W()), m.W())
  {
    hide Linked, Phase, Later, BusySame, PollWorld, Unreffed;
    refused := !Accepts(DismissVerb, m.jobs[j].status);
    Manager.PollSelf(m.W());
    if !refused {
      DismissLocked(m, j);
    }
  }
}
