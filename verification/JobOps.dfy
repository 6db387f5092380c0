/** Operations on jobs, built on the transaction core: finalising, completing,
    cancelling, pausing, and the coroutine's own steps. */
module JobOps {
  import opened Options
  import opened Numbers
  import opened Seqs
  import opened Jobs
  import opened JobManager

  // ---------------------------------------------------------------------------
  // Finalising a transaction.

  /** The transaction is being prepared or committed. */
  ghost predicate InCommit(w: World, t: TxnId) {
    t in w.txns && w.txns[t].busy && !w.txns[t].aborting
  }

  /** `v` is a later world in which the transaction has the same jobs. */
  ghost predicate SameTxn(w: World, v: World, t: TxnId) {
    && t in w.txns && t in v.txns && v.txns[t] == w.txns[t]
    && Later(w, v) && BusySame(w, v, Some(t))
    && forall i :: i in w.txns[t].jobs ==>
         i in w.jobs && i in v.jobs && v.jobs[i].refcnt == w.jobs[i].refcnt && v.jobs[i].cfg == w.jobs[i].cfg
  }

  /** The first non-zero answer among the preparations of a list of jobs, 0 if there is
      none; jobs without a prepare callback are not asked. */
  function FirstFailure(asked: seq<bool>, script: seq<Window>): int {
    if asked == [] then 0
    else if !asked[0] then FirstFailure(asked[1..], script)
    else if Manager.Answer(script) != 0 then Manager.Answer(script)
    else FirstFailure(asked[1..], Manager.Rest(script))
  }

  /** Which jobs of a list have a prepare callback. */
  function Asked(jobs: map<JobId, Job>, list: seq<JobId>): seq<bool> {
    seq(|list|, k requires 0 <= k < |list| => list[k] in jobs && jobs[list[k]].cfg.hasPrepare)
  }

  /** Preparation failed at `bad`: all others are as they were. */
  ghost predicate FailedAt(w: World, t: TxnId, bad: JobId, rc: int) {
    && Linked(w) && InCommit(w, t) && Manager.OthersInPhase(w, t) && rc != 0
    && bad in w.txns[t].jobs && bad in w.jobs && w.jobs[bad].ret == rc && w.jobs[bad].status == Aborting
    && forall i :: i in w.txns[t].jobs && i != bad ==> i in w.jobs && Ripe(w.jobs[i])
  }

  /** job_prepare_locked. */
  method Prepare(m: Manager, i: JobId, ghost t: TxnId) returns (rc: int)
    requires Ok(m.W()) && InCommit(m.W(), t) && i in m.txns[t].jobs
    modifies m
    ensures SameTxn(old(m.W()), m.W(), t)
    ensures if rc == 0 then Ok(m.W()) else FailedAt(m.W(), t, i, rc)
    ensures i in old(m.jobs)
    ensures if old(m.jobs)[i].cfg.hasPrepare
            then rc == Manager.Answer(old(m.script)) && m.script == Manager.Rest(old(m.script))
            else rc == 0 && m.script == old(m.script)
  {
    hide Linked, Phase, Later, BusySame, SameTxn, FailedAt;
    ghost var w := m.W();
    PrepareStart(w, t, i);
    if m.jobs[i].ret == 0 && m.jobs[i].cfg.hasPrepare {
      var ret := m.Poll();
      ghost var v := m.W();
      PreparePolled(w, v, t, i);
      m.jobs := m.jobs[i := m.jobs[i].(ret := ret)];
      m.UpdateRc(i);
      PrepareDone(w, v, m.W(), t, i, ret);
    }
    rc := m.jobs[i].ret;
  }

  lemma PrepareStart(w: World, t: TxnId, i: JobId)
    requires Ok(w) && InCommit(w, t) && i in w.txns[t].jobs
    ensures i in w.jobs && Ripe(w.jobs[i]) && w.jobs[i].ret == 0 && SameTxn(w, w, t)
  {
    Manager.PollSelf(w);
    Manager.MembersExist(w, t);
    BusyWeaker(w, w, Some(t));
    assert Phase(w, t);
  }

  lemma PreparePolled(w: World, v: World, t: TxnId, i: JobId)
    requires Ok(w) && InCommit(w, t) && i in w.txns[t].jobs && PollWorld(w, v)
    ensures i in v.jobs && Ripe(v.jobs[i]) && SameTxn(w, v, t) && InCommit(v, t) && i in v.txns[t].jobs
  {
    BusyWeaker(w, v, Some(t));
    Manager.MembersMove(w, v, t);
    assert Phase(v, t);
  }

  lemma PrepareDone(w: World, v: World, u: World, t: TxnId, i: JobId, ret: int)
    requires Ok(w) && Ok(v) && SameTxn(w, v, t) && InCommit(v, t) && i in v.txns[t].jobs && i in v.jobs
    requires Ripe(v.jobs[i])
    requires u == Put(v, i, Settled(v.jobs[i].(ret := ret)))
    ensures SameTxn(w, u, t) && i in u.jobs && u.jobs[i].ret == ret
    ensures if ret == 0 then Ok(u) else FailedAt(u, t, i, ret)
  {
    hide Linked, Phase, Later, BusySame, FailedAt, Settled;
    var b := Settled(v.jobs[i].(ret := ret));
    Manager.MembersExist(v, t);
    SettledRet(v.jobs[i], ret);
    if ret == 0 {
      PutSame(v, i);
    } else {
      PrepareFailed(v, u, t, i, ret);
      PrepareMoves(v, u, t, i, b);
      Manager.UnwindLater(w, v, u, t);
    }
  }

  lemma SettledRet(b: Job, ret: int)
    requires Ripe(b)
    ensures Settled(b.(ret := ret)) == if ret == 0 then b else b.(ret := ret, status := Aborting)
  {
  }

  lemma PrepareFailed(v: World, u: World, t: TxnId, i: JobId, ret: int)
    requires Ok(v) && InCommit(v, t) && i in v.txns[t].jobs && i in v.jobs && Ripe(v.jobs[i]) && ret != 0
    requires u == Put(v, i, v.jobs[i].(ret := ret, status := Aborting))
    ensures FailedAt(u, t, i, ret)
  {
    var b := u.jobs[i];
    assert JobOk(v.jobs[i]);
    Manager.MembersExist(v, t);
    PutLinked(v, i, b);
    assert Phase(v, t);
    forall x | x in u.txns && x != t ensures Phase(u, x) {
      PutPhase(v, i, b, x);
    }
  }

  lemma PrepareMoves(v: World, u: World, t: TxnId, i: JobId, b: Job)
    requires Linked(v) && t in v.txns && i in v.jobs && v.jobs[i].txn == Some(t) && u == Put(v, i, b)
    requires b == v.jobs[i].(ret := b.ret, status := Aborting) && Completed(v.jobs[i].status)
    requires v.jobs[i].status != Null
    ensures Later(v, u) && BusySame(v, u, Some(t))
  {
    PutLater(v, i, b);
    PutBusy(v, i, b, Some(t));
  }

  /** job_txn_apply_locked with job_prepare_locked: up to the first failure. */
  method PrepareAll(m: Manager, t: TxnId) returns (rc: int, ghost bad: JobId)
    requires Ok(m.W()) && InCommit(m.W(), t)
    modifies m
    ensures SameTxn(old(m.W()), m.W(), t)
    ensures if rc == 0 then Ok(m.W()) else FailedAt(m.W(), t, bad, rc)
    ensures rc == FirstFailure(Asked(old(m.jobs), old(m.txns[t].jobs)), old(m.script))
  {
    hide Linked, Phase, Later, BusySame, FailedAt, SameTxn;
    ghost var w := m.W();
    SameTxnSelf(w, t);
    var list := m.txns[t].jobs;
    ghost var asked := Asked(m.jobs, list);
    rc, bad := 0, 0;
    assert asked[0..] == asked;
    for k := 0 to |list|
      invariant Ok(m.W()) && SameTxn(w, m.W(), t) && rc == 0
      invariant FirstFailure(asked[k..], m.script) == FirstFailure(asked, old(m.script))
    {
      ghost var v := m.W();
      SameTxnGives(w, v, t);
      SameConfig(w, v, t, list[k]);
      assert asked[k..][1..] == asked[k + 1..];
      rc := Prepare(m, list[k], t);
      SameTxnTrans(w, v, m.W(), t);
      if rc != 0 {
        bad := list[k];
        return;
      }
    }
  }

  lemma SameConfig(w: World, v: World, t: TxnId, i: JobId)
    requires SameTxn(w, v, t) && i in w.txns[t].jobs
    ensures i in w.jobs && i in v.jobs && v.jobs[i].cfg == w.jobs[i].cfg
  {
  }

  lemma SameTxnSelf(w: World, t: TxnId)
    requires Ok(w) && t in w.txns
    ensures SameTxn(w, w, t)
  {
    Manager.PollSelf(w);
    Manager.MembersExist(w, t);
    BusyWeaker(w, w, Some(t));
  }

  lemma SameTxnGives(w: World, v: World, t: TxnId)
    requires SameTxn(w, v, t)
    ensures t in v.txns && v.txns[t] == w.txns[t]
  {
  }

  lemma SameTxnTrans(w: World, v: World, u: World, t: TxnId)
    requires Linked(w) && Linked(v) && SameTxn(w, v, t) && SameTxn(v, u, t)
    ensures SameTxn(w, u, t)
  {
    hide Linked, Later, BusySame;
    Manager.UnwindLater(w, v, u, t);
  }

  /** Part of the way through a commit: `done` jobs of the list are committed and gone. */
  ghost predicate Committing(w: World, v: World, t: TxnId, list: seq<JobId>, done: nat) {
    && done <= |list| && Later(w, v) && BusySame(w, v, Some(t))
    && (forall k :: 0 <= k < done ==> list[k] in v.ends && v.ends[list[k]] == [Committed])
    && (t in v.txns ==> v.txns[t].busy && !v.txns[t].aborting)
    && (done < |list| ==> t in v.txns)
    && (t in v.txns ==> forall i :: i in v.txns[t].jobs <==> i in list[done..])
  }

  /** job_txn_apply_locked with job_finalize_single_locked. */
  method CommitAll(m: Manager, t: TxnId)
    requires Ok(m.W()) && InCommit(m.W(), t)
    modifies m
    ensures Ok(m.W()) && Committing(old(m.W()), m.W(), t, old(m.txns[t].jobs), |old(m.txns[t].jobs)|)
  {
    hide Linked, Phase, Later, BusySame, Committing, Manager.Finalised;
    ghost var w := m.W();
    var list := m.txns[t].jobs;
    CommitStart(w, t);
    for k := 0 to |list|
      invariant Ok(m.W()) && Committing(w, m.W(), t, list, k)
    {
      ghost var v := m.W();
      CommitNext(w, v, t, list, k);
      m.FinalizeSingle(list[k]);
      CommitOneMore(w, v, m.W(), t, list, k);
    }
  }

  lemma CommitStart(w: World, t: TxnId)
    requires Ok(w) && InCommit(w, t)
    ensures Committing(w, w, t, w.txns[t].jobs, 0) && NoDup(w.txns[t].jobs)
  {
    SameTxnSelf(w, t);
    Manager.MembersExist(w, t);
  }

  lemma CommitNext(w: World, v: World, t: TxnId, list: seq<JobId>, k: nat)
    requires Ok(v) && Committing(w, v, t, list, k) && k < |list|
    ensures t in v.txns && list[k] in v.txns[t].jobs && list[k] in v.jobs && v.jobs[list[k]].txn == Some(t)
    ensures Manager.Finalisable(v, list[k]) && EndOf(v.jobs[list[k]]) == Committed
  {
    assert list[k] in list[k..];
    Manager.MembersExist(v, t);
    assert Phase(v, t);
  }

  lemma CommitOneMore(w: World, v: World, u: World, t: TxnId, list: seq<JobId>, k: nat)
    requires Linked(w) && Ok(v) && Committing(w, v, t, list, k) && k < |list| && NoDup(list)
    requires t in v.txns && list[k] in v.txns[t].jobs && list[k] in v.jobs && v.jobs[list[k]].txn == Some(t)
    requires Manager.Finalisable(v, list[k]) && EndOf(v.jobs[list[k]]) == Committed
    requires Ok(u) && Manager.Finalised(v, u, list[k])
    ensures Committing(w, u, t, list, k + 1)
  {
    hide Linked, Phase, Fated, EndOf, BusyMove, BusySame, NoDup, Manager.Finalisable;
    Manager.UnwindLater(w, v, u, t);
    Manager.MembersExist(v, t);
    NextInList(v.txns[t].jobs, list, k);
    if k + 1 < |list| {
      RefcntKeepsTxn(v, t, list[k], list[k + 1]);
    }
  }

  lemma NextInList(now: seq<JobId>, list: seq<JobId>, k: nat)
    requires k < |list| && NoDup(list) && NoDup(now) && forall i :: i in now <==> i in list[k..]
    ensures forall i :: i in Remove(now, list[k]) <==> i in list[k + 1..]
    ensures k + 1 < |list| ==> list[k + 1] in now && list[k + 1] != list[k]
  {
    assert list[k..] == [list[k]] + list[k + 1..];
    assert k + 1 < |list| ==> list[k + 1] in list[k..];
  }

  lemma RefcntKeepsTxn(v: World, t: TxnId, a: JobId, b: JobId)
    requires Linked(v) && t in v.txns && a in v.txns[t].jobs && b in v.txns[t].jobs && a != b
    ensures v.txns[t].refcnt != 1
  {
    assert TxnIn(v, t);
    var i :| 0 <= i < |v.txns[t].jobs| && v.txns[t].jobs[i] == a;
    var j :| 0 <= j < |v.txns[t].jobs| && v.txns[t].jobs[j] == b;
  }

  function Reffed(w: World, j: JobId): World
    requires j in w.jobs
  {
    Put(w, j, w.jobs[j].(refcnt := w.jobs[j].refcnt + 1))
  }

  method ApplyPrepare(m: Manager, j: JobId, t: TxnId) returns (rc: int, ghost bad: JobId)
    requires Ok(m.W()) && InCommit(m.W(), t) && j in m.txns[t].jobs && j in m.jobs && m.jobs[j].txn == Some(t)
    modifies m
    ensures SameTxn(old(m.W()), m.W(), t)
    ensures if rc == 0 then Ok(m.W()) else FailedAt(m.W(), t, bad, rc)
    ensures rc == FirstFailure(Asked(old(m.jobs), old(m.txns[t].jobs)), old(m.script))
  {
    hide Linked, Phase, Later, BusySame, FailedAt, SameTxn, Unreffed, FirstFailure;
    ghost var w := m.W();
    Manager.RefOk(w, j);
    m.Ref(j);
    ghost var w1 := m.W();
    assert w1 == Reffed(w, j);
    SameAsked(w, j, m.txns[t].jobs);
    rc, bad := PrepareAll(m, t);
    ghost var w2 := m.W();
    ApplyMember(w1, w2, t, j, rc, bad);
    m.Unref(j);
    ApplyPrepared(w, w1, w2, m.W(), t, j, rc, bad);
  }

  lemma SameAsked(w: World, j: JobId, list: seq<JobId>)
    requires j in w.jobs
    ensures Asked(Reffed(w, j).jobs, list) == Asked(w.jobs, list)
  {
    SameAsks(w.jobs, Reffed(w, j).jobs, list);
  }

  lemma ApplyMember(w: World, v: World, t: TxnId, j: JobId, rc: int, bad: JobId)
    requires Linked(w) && SameTxn(w, v, t) && j in w.txns[t].jobs && j in w.jobs && w.jobs[j].refcnt >= 2
    requires if rc == 0 then Ok(v) else FailedAt(v, t, bad, rc)
    ensures Linked(v) && j in v.jobs && v.jobs[j].refcnt == w.jobs[j].refcnt && v.jobs[j].txn == Some(t)
    ensures v.jobs[j].status != Null
  {
    Manager.MembersExist(v, t);
    assert JobOk(v.jobs[j]);
  }

  lemma ApplyPrepared(w: World, w1: World, w2: World, v: World, t: TxnId, j: JobId, rc: int, bad: JobId)
    requires Linked(w) && j in w.jobs && w.jobs[j].txn == Some(t) && w1 == Reffed(w, j) && Linked(w1)
    requires SameTxn(w1, w2, t) && (if rc == 0 then Ok(w2) else FailedAt(w2, t, bad, rc))
    requires Linked(w2) && j in w2.jobs && w2.jobs[j].txn == Some(t) && w2.jobs[j].refcnt == w.jobs[j].refcnt + 1 >= 2
    requires w2.jobs[j].status != Null && Unreffed(w2, v, j) && Linked(v)
    ensures SameTxn(w, v, t) && if rc == 0 then Ok(v) else FailedAt(v, t, bad, rc)
  {
    hide Linked, Phase, Later, BusySame;
    Bracket(w, w1, w2, v, j, Some(t));
    assert v == Put(w2, j, w2.jobs[j].(refcnt := w2.jobs[j].refcnt - 1));
    assert t in w.txns && v.txns[t] == w.txns[t];
    if rc == 0 {
      UnreffedPhases(w2, v, j);
    } else {
      forall u | u in v.txns && u != t ensures Phase(v, u) {
        assert Phase(w2, u);
        PutPhase(w2, j, v.jobs[j], u);
      }
    }
  }

  method ApplyCommit(m: Manager, j: JobId, t: TxnId)
    requires Ok(m.W()) && InCommit(m.W(), t) && j in m.txns[t].jobs && j in m.jobs && m.jobs[j].txn == Some(t)
    modifies m
    ensures Ok(m.W()) && Committing(old(m.W()), m.W(), t, old(m.txns[t].jobs), |old(m.txns[t].jobs)|)
  {
    hide Linked, Phase, Later, BusySame, Committing, Unreffed;
    ghost var w := m.W();
    Manager.RefOk(w, j);
    m.Ref(j);
    ghost var w1 := m.W();
    assert w1 == Reffed(w, j);
    CommitAll(m, t);
    ghost var w2 := m.W();
    StillHeld(w1, w2, t, j);
    m.Unref(j);
    ApplyCommitted(w, w1, w2, m.W(), t, j);
  }

  lemma StillHeld(w: World, v: World, t: TxnId, j: JobId)
    requires j in w.jobs && Held(w.jobs[j]) >= 1 && t in w.txns && w.jobs[j].txn == Some(t)
    requires Committing(w, v, t, w.txns[t].jobs, |w.txns[t].jobs|)
    ensures j in v.jobs && Held(v.jobs[j]) >= 1 && (v.jobs[j].txn == None || v.jobs[j].txn == Some(t))
  {
  }

  lemma ApplyCommitted(w: World, w1: World, w2: World, v: World, t: TxnId, j: JobId)
    requires Linked(w) && j in w.jobs && t in w.txns && w.jobs[j].txn == Some(t) && w1 == Reffed(w, j) && Linked(w1)
    requires Ok(w2) && Committing(w1, w2, t, w1.txns[t].jobs, |w1.txns[t].jobs|)
    requires j in w2.jobs && Held(w2.jobs[j]) >= 1 && (w2.jobs[j].txn == None || w2.jobs[j].txn == Some(t))
    requires Unreffed(w2, v, j) && Linked(v)
    ensures Ok(v) && Committing(w, v, t, w.txns[t].jobs, |w.txns[t].jobs|)
  {
    hide Linked, Phase, Later, BusySame;
    Bracket(w, w1, w2, v, j, Some(t));
    UnreffedPhases(w2, v, j);
  }

  /** Every job of the transaction is committed, or, when a preparation failed, every
      job is aborted but for a trigger that did not fail itself. */
  ghost predicate TxnFinalised(w: World, v: World, j: JobId, t: TxnId, rc: int, bad: JobId)
    requires t in w.txns
  {
    && Later(w, v) && BusySame(w, v, Some(t)) && (t in v.txns ==> v.txns[t].jobs == [] && !v.txns[t].busy)
    && (rc == 0 ==> forall i :: i in w.txns[t].jobs ==> i in v.ends && v.ends[i] == [Committed])
    && (rc != 0 ==> bad in w.txns[t].jobs && forall i :: i in w.txns[t].jobs ==>
                      i in v.ends && v.ends[i] == [if i == j && bad != j then Committed else Aborted])
  }

  function WithBusy(w: World, t: TxnId, b: bool): World
    requires t in w.txns
  {
    w.(txns := w.txns[t := w.txns[t].(busy := b)])
  }

  /** job_do_finalize_locked, on a pending job. */
  method DoFinalize(m: Manager, j: JobId, ghost t: TxnId) returns (rc: int, ghost bad: JobId)
    requires Ok(m.W()) && j in m.jobs && m.jobs[j].txn == Some(t) && t in m.txns && !m.txns[t].busy
    requires m.jobs[j].status == Pending
    modifies m
    ensures Ok(m.W()) && TxnFinalised(old(m.W()), m.W(), j, t, rc, bad)
    ensures rc == FirstFailure(Asked(old(m.jobs), old(m.txns)[t].jobs), old(m.script))
  {
    hide Linked, Phase, Later, BusySame, FailedAt, SameTxn, Committing, TxnFinalised, Manager.TxnAborted,
         FirstFailure, Asked;
    ghost var w := m.W();
    var x := m.jobs[j].txn.value;
    BusyStart(w, j, t);
    m.txns := m.txns[x := m.txns[x].(busy := true)];
    ghost var w1 := m.W();
    assert w1 == WithBusy(w, t, true);
    rc, bad := ApplyPrepare(m, j, x);
    ghost var w2 := m.W();
    SameTxnGives(w1, w2, t);
    if rc != 0 {
      FailedEntry(w1, w2, j, t, bad, rc);
      m.TxnAbort(j, t);
      FailedDone(w, w1, w2, m.W(), j, t, bad, rc);
    } else {
      PreparedMember(w1, w2, j, t);
      ApplyCommit(m, j, x);
      ghost var w3 := m.W();
      if x in m.txns {
        m.txns := m.txns[x := m.txns[x].(busy := false)];
      }
      CommitDone(w, w1, w2, w3, m.W(), j, t, bad);
    }
  }

  lemma BusyStart(w: World, j: JobId, t: TxnId)
    requires Ok(w) && j in w.jobs && w.jobs[j].txn == Some(t) && t in w.txns && !w.txns[t].busy
    requires w.jobs[j].status == Pending
    ensures Ok(WithBusy(w, t, true)) && InCommit(WithBusy(w, t, true), t) && j in w.txns[t].jobs
    ensures Later(w, WithBusy(w, t, true)) && BusySame(w, WithBusy(w, t, true), Some(t))
  {
    hide Later, BusySame, BusyMove, JobOk;
    var v := WithBusy(w, t, true);
    SameJobsLater(w, v);
    SameJobsBusy(w, v, t);
    assert JobIn(w, j) && Phase(w, t);
    Manager.MembersExist(w, t);
    forall i | i in w.txns[t].jobs ensures Ripe(w.jobs[i]) {
      assert InStep(w.jobs[j], w.jobs[i]) && Calm(w.jobs[i]);
      PendingRipe(w, i);
    }
    forall i | i in v.jobs ensures JobIn(v, i) {
      assert JobIn(w, i);
    }
    forall u | u in v.txns ensures TxnIn(v, u) && Phase(v, u) {
      assert TxnIn(w, u) && Phase(w, u);
    }
  }

  lemma PendingRipe(w: World, i: JobId)
    requires Linked(w) && i in w.jobs && w.jobs[i].status == Pending && Calm(w.jobs[i])
    ensures Ripe(w.jobs[i])
  {
    assert JobOk(w.jobs[i]);
  }

  lemma FailedEntry(w1: World, w2: World, j: JobId, t: TxnId, bad: JobId, rc: int)
    requires SameTxn(w1, w2, t) && FailedAt(w2, t, bad, rc) && j in w1.txns[t].jobs
    ensures Manager.AbortEntry(w2, j, t) && (EndOf(w2.jobs[j]) == if j == bad then Aborted else Committed)
    ensures !w2.txns[t].aborting
  {
    Manager.MembersExist(w2, t);
  }

  lemma FailedDone(w: World, w1: World, w2: World, v: World, j: JobId, t: TxnId, bad: JobId, rc: int)
    requires Linked(w) && t in w.txns && w1 == WithBusy(w, t, true) && Linked(w1)
    requires Later(w, w1) && BusySame(w, w1, Some(t)) && SameTxn(w1, w2, t) && FailedAt(w2, t, bad, rc)
    requires j in w2.jobs && EndOf(w2.jobs[j]) == (if j == bad then Aborted else Committed)
    requires Manager.TxnAborted(w2, v, j, t)
    ensures TxnFinalised(w, v, j, t, rc, bad)
  {
    hide Linked, Later, BusySame, Phase, EndOf;
    Manager.UnwindLater(w, w1, w2, t);
    Manager.UnwindLater(w, w2, v, t);
  }

  lemma PreparedMember(w1: World, w2: World, j: JobId, t: TxnId)
    requires SameTxn(w1, w2, t) && Linked(w2) && j in w1.txns[t].jobs
    ensures j in w2.txns[t].jobs && j in w2.jobs && w2.jobs[j].txn == Some(t)
  {
    Manager.MembersExist(w2, t);
  }

  lemma CommitDone(w: World, w1: World, w2: World, w3: World, v: World, j: JobId, t: TxnId, bad: JobId)
    requires Linked(w) && t in w.txns && w1 == WithBusy(w, t, true) && Linked(w1)
    requires Later(w, w1) && BusySame(w, w1, Some(t)) && SameTxn(w1, w2, t) && Linked(w2)
    requires Committing(w2, w3, t, w2.txns[t].jobs, |w2.txns[t].jobs|) && Ok(w3)
    requires v == if t in w3.txns then WithBusy(w3, t, false) else w3
    ensures Ok(v) && TxnFinalised(w, v, j, t, 0, bad)
  {
    hide Linked, Phase, Later, BusySame;
    if t in w3.txns {
      NoneLeft(w3.txns[t].jobs, w2.txns[t].jobs);
    }
    CommitEnds(w2, w3, t);
    EmptyCalm(w3, v, t);
    Manager.UnwindLater(w, w1, w2, t);
    Manager.UnwindLater(w, w2, w3, t);
    Manager.UnwindLater(w, w3, v, t);
  }

  lemma NoneLeft(now: seq<JobId>, list: seq<JobId>)
    requires forall i :: i in now <==> i in list[|list|..]
    ensures now == []
  {
    if |now| > 0 {
      FirstIn(now);
    }
  }

  lemma FirstIn(s: seq<JobId>)
    requires |s| > 0
    ensures s[0] in s
  {
  }

  lemma CommitEnds(w: World, v: World, t: TxnId)
    requires t in w.txns && Committing(w, v, t, w.txns[t].jobs, |w.txns[t].jobs|)
    ensures Later(w, v) && BusySame(w, v, Some(t))
    ensures forall i :: i in w.txns[t].jobs ==> i in v.ends && v.ends[i] == [Committed]
  {
    forall i | i in w.txns[t].jobs ensures i in v.ends && v.ends[i] == [Committed] {
      var k :| 0 <= k < |w.txns[t].jobs| && w.txns[t].jobs[k] == i;
    }
  }

  lemma EmptyCalm(w: World, v: World, t: TxnId)
    requires Ok(w) && (t in w.txns ==> w.txns[t].jobs == [])
    requires v == if t in w.txns then WithBusy(w, t, false) else w
    ensures Ok(v) && Later(w, v) && BusySame(w, v, Some(t))
  {
    hide Later, JobOk, BusySame, BusyMove;
    SameJobsLater(w, v);
    forall i | i in v.jobs ensures JobIn(v, i) {
      assert JobIn(w, i);
    }
    forall u | u in v.txns ensures TxnIn(v, u) && Phase(v, u) {
      assert TxnIn(w, u) && Phase(w, u);
    }
    SameJobsBusy(w, v, t);
  }

  lemma SameJobsBusy(w: World, v: World, t: TxnId)
    requires Linked(w) && v.jobs == w.jobs
    requires v.txns == w.txns || exists b :: t in w.txns && v == WithBusy(w, t, b)
    ensures BusySame(w, v, Some(t))
  {
    hide JobOk, JobIn;
    forall u | u in w.txns ensures TxnIn(w, u) {
    }
  }

  // ---------------------------------------------------------------------------
  // A job completes.

  /** A job whose coroutine has ended well, in a transaction that nobody finalises. */
  ghost predicate SuccessEntry(w: World, j: JobId, t: TxnId) {
    && Ok(w) && j in w.jobs && w.jobs[j].txn == Some(t) && t in w.txns && !w.txns[t].busy && !w.txns[t].aborting
    && w.jobs[j].co == Ended && !Completed(w.jobs[j].status) && !Fated(w.jobs[j])
  }

  /** job_completed_txn_success_locked. `last` tells whether the job was the last to
      complete, `auto` whether the transaction was then finalised at once. */
  method TxnSuccess(m: Manager, j: JobId, ghost t: TxnId)
    returns (last: bool, auto: bool, rc: int, ghost bad: JobId)
    requires SuccessEntry(m.W(), j, t)
    modifies m
    ensures Ok(m.W()) && Later(old(m.W()), m.W()) && BusySame(old(m.W()), m.W(), None)
    ensures last <==> forall i :: i in old(m.txns)[t].jobs && i in old(m.jobs) && i != j ==>
              Completed(old(m.jobs)[i].status)
    ensures auto <==> last && forall i :: i in old(m.txns)[t].jobs && i in old(m.jobs) ==>
              old(m.jobs)[i].cfg.autoFinalize
    ensures auto ==> TxnFinalised(old(m.W()), m.W(), j, t, rc, bad)
    ensures auto ==> rc == FirstFailure(Asked(old(m.jobs), old(m.txns)[t].jobs), old(m.script))
    ensures last && !auto ==> AllPending(old(m.W()), m.W(), t)
    ensures j in m.jobs ==> Completed(m.jobs[j].status)
    ensures !last ==> m.W() == Put(old(m.W()), j, old(m.jobs[j]).(status := Waiting))
  {
    hide Linked, Phase, Later, BusySame, TxnFinalised, PollWorld, FirstFailure, Asked, AllPending;
    ghost var w := m.W();
    var x := m.jobs[j].txn.value;
    WaitingKeeps(w, j, t);
    m.Transition(j, Waiting);
    ghost var w1 := m.W();
    PollGives(w, w1);
    rc, bad, auto, last := 0, 0, true, true;
    var list := m.txns[x].jobs;
    for k := 0 to |list|
      invariant m.W() == w1 && m.script == old(m.script)
      invariant last && forall i :: 0 <= i < k ==> list[i] in w1.jobs && Completed(w1.jobs[list[i]].status)
    {
      ListMember(w1, t, k);
      if !Completed(m.jobs[list[k]].status) {
        last, auto := false, false;
        NotLast(w, w1, j, t, k);
        return;
      }
      assert m.jobs[list[k]].ret == 0 by {
        CompletedRet(w1, t, k);
      }
    }
    AllWaiting(w, w1, j, t);
    MakePending(m, x);
    ghost var w2 := m.W();
    PendingKeeps(w, w1, w2, j, t);
    PollGives(w, w2);
    PendingView(w, w1, w2, j, t);
    auto := NeedNoFinalize(m, x);
    if auto {
      assert m.script == old(m.script) && m.txns[t].jobs == w.txns[t].jobs;
      rc, bad := DoFinalize(m, j, t);
      AutoFinalised(w, w2, m.W(), j, t, rc, bad);
    }
  }

  lemma WaitingKeeps(w: World, j: JobId, t: TxnId)
    requires SuccessEntry(w, j, t)
    ensures Stt(w.jobs[j].status, Waiting)
    ensures PollWorld(w, Put(w, j, w.jobs[j].(status := Waiting)))
  {
    hide Linked, Later, BusySame, Phase, JobOk;
    var b := w.jobs[j].(status := Waiting);
    WaitingMoves(w, j, t);
    PutLinked(w, j, b);
    PutLater(w, j, b);
    PutBusy(w, j, b, None);
    InOwnList(w, j, t);
    WaitingPhase(w, j, t);
    forall u | u in w.txns && u != t ensures Phase(Put(w, j, b), u) {
      PutPhase(w, j, b, u);
    }
  }

  lemma WaitingMoves(w: World, j: JobId, t: TxnId)
    requires SuccessEntry(w, j, t)
    ensures Stt(w.jobs[j].status, Waiting) && JobOk(w.jobs[j].(status := Waiting))
    ensures BusyMove(w.jobs[j], w.jobs[j].(status := Waiting)) && w.jobs[j].status != Null
  {
    assert JobOk(w.jobs[j]);
  }

  lemma WaitingPhase(w: World, j: JobId, t: TxnId)
    requires SuccessEntry(w, j, t) && j in w.txns[t].jobs
    ensures Phase(Put(w, j, w.jobs[j].(status := Waiting)), t)
  {
    assert Phase(w, t);
    assert forall i :: i in w.txns[t].jobs && i in w.jobs ==> InStep(w.jobs[i], w.jobs[j]);
  }

  lemma PollGives(w: World, v: World)
    requires PollWorld(w, v)
    ensures Ok(v) && Later(w, v) && BusySame(w, v, None)
  {
  }

  lemma ListMember(w: World, t: TxnId, k: nat)
    requires Linked(w) && t in w.txns && k < |w.txns[t].jobs|
    ensures w.txns[t].jobs[k] in w.jobs
  {
    Manager.MembersExist(w, t);
  }

  /** The assertion in the loop: a completed job of a calm transaction has result 0. */
  lemma CompletedRet(w: World, t: TxnId, k: nat)
    requires Ok(w) && t in w.txns && !w.txns[t].busy && k < |w.txns[t].jobs| && w.txns[t].jobs[k] in w.jobs
    requires Completed(w.jobs[w.txns[t].jobs[k]].status)
    ensures w.jobs[w.txns[t].jobs[k]].ret == 0
  {
    assert Phase(w, t) && w.txns[t].jobs[k] in w.txns[t].jobs && JobOk(w.jobs[w.txns[t].jobs[k]]);
  }

  lemma NotLast(w: World, w1: World, j: JobId, t: TxnId, k: nat)
    requires j in w.jobs && t in w.txns && w1 == Put(w, j, w.jobs[j].(status := Waiting))
    requires k < |w.txns[t].jobs| && w.txns[t].jobs[k] in w1.jobs && !Completed(w1.jobs[w.txns[t].jobs[k]].status)
    ensures exists i :: i in w.txns[t].jobs && i in w.jobs && i != j && !Completed(w.jobs[i].status)
  {
    assert w.txns[t].jobs[k] in w.txns[t].jobs;
  }

  lemma AllWaiting(w: World, w1: World, j: JobId, t: TxnId)
    requires SuccessEntry(w, j, t) && w1 == Put(w, j, w.jobs[j].(status := Waiting)) && Linked(w1)
    requires forall i :: 0 <= i < |w.txns[t].jobs| ==>
               w.txns[t].jobs[i] in w1.jobs && Completed(w1.jobs[w.txns[t].jobs[i]].status)
    ensures forall i :: i in w1.txns[t].jobs ==> i in w1.jobs && w1.jobs[i].status == Waiting
    ensures forall i :: i in w.txns[t].jobs && i in w.jobs && i != j ==> Completed(w.jobs[i].status)
  {
    assert Phase(w, t) && JobIn(w, j);
    forall i | i in w.txns[t].jobs ensures i in w1.jobs && w1.jobs[i].status == Waiting {
      var k :| 0 <= k < |w.txns[t].jobs| && w.txns[t].jobs[k] == i;
      if i != j {
        assert InStep(w.jobs[i], w.jobs[j]) && Calm(w.jobs[i]);
      }
    }
  }

  ghost predicate AllPending(w: World, v: World, t: TxnId)
    requires t in w.txns
  {
    && v.txns == w.txns && v.ends == w.ends && v.jobs.Keys == w.jobs.Keys
    && forall i :: i in w.jobs ==> v.jobs[i] == if i in w.txns[t].jobs then w.jobs[i].(status := Pending) else w.jobs[i]
  }

  /** job_txn_apply_locked with job_transition_to_pending_locked. */
  method MakePending(m: Manager, t: TxnId)
    requires Linked(m.W()) && t in m.txns
    requires forall i :: i in m.txns[t].jobs ==> i in m.jobs && m.jobs[i].status == Waiting
    modifies m`jobs
    ensures AllPending(old(m.W()), m.W(), t)
  {
    hide Linked, NoDup, Upto;
    ghost var jobs := m.jobs;
    var list := m.txns[t].jobs;
    Manager.MembersExist(m.W(), t);
    UptoStart(jobs, list);
    for k := 0 to |list|
      invariant Upto(jobs, m.jobs, list, k)
    {
      UptoNext(jobs, m.jobs, list, k);
      m.Transition(list[k], Pending);
    }
    UptoEnd(jobs, m.jobs, list);
  }

  /** The first `k` of the list are pending, nothing else has changed. */
  ghost predicate Upto(a: map<JobId, Job>, b: map<JobId, Job>, list: seq<JobId>, k: nat) {
    && k <= |list| && b.Keys == a.Keys
    && forall i :: i in a ==> b[i] == if i in list[..k] then a[i].(status := Pending) else a[i]
  }

  lemma UptoStart(a: map<JobId, Job>, list: seq<JobId>)
    ensures Upto(a, a, list, 0)
  {
  }

  lemma UptoNext(a: map<JobId, Job>, b: map<JobId, Job>, list: seq<JobId>, k: nat)
    requires Upto(a, b, list, k) && k < |list| && NoDup(list) && list[k] in a
    ensures list[k] in b && b[list[k]] == a[list[k]]
    ensures Upto(a, b[list[k] := b[list[k]].(status := Pending)], list, k + 1)
  {
    assert list[..k + 1] == list[..k] + [list[k]];
    assert list[k] !in list[..k];
  }

  lemma UptoEnd(a: map<JobId, Job>, b: map<JobId, Job>, list: seq<JobId>)
    requires Upto(a, b, list, |list|)
    ensures b.Keys == a.Keys && forall i :: i in a ==> b[i] == if i in list then a[i].(status := Pending) else a[i]
  {
    assert list[..|list|] == list;
  }

  lemma PendingKeeps(w: World, w1: World, w2: World, j: JobId, t: TxnId)
    requires SuccessEntry(w, j, t) && w1 == Put(w, j, w.jobs[j].(status := Waiting)) && PollWorld(w, w1)
    requires AllPending(w1, w2, t) && forall i :: i in w1.txns[t].jobs ==> i in w1.jobs && w1.jobs[i].status == Waiting
    ensures PollWorld(w, w2) && j in w2.jobs && w2.jobs[j].txn == Some(t) && w2.jobs[j].status == Pending
    ensures j in w.txns[t].jobs && t in w2.txns && !w2.txns[t].busy && w2.txns[t].jobs == w.txns[t].jobs
  {
    hide Linked, Phase, Later, BusySame;
    InOwnList(w, j, t);
    PendingOk(w1, w2, t);
    PendingMoves(w1, w2, t);
    LaterTrans(w, w1, w2);
    BusyTrans(w, w1, w2, None);
  }

  /** Seen from before the last job completed. */
  lemma PendingView(w: World, w1: World, w2: World, j: JobId, t: TxnId)
    requires j in w.jobs && t in w.txns && j in w.txns[t].jobs && w1 == Put(w, j, w.jobs[j].(status := Waiting))
    requires AllPending(w1, w2, t)
    ensures AllPending(w, w2, t) && Asked(w2.jobs, w.txns[t].jobs) == Asked(w.jobs, w.txns[t].jobs)
    ensures forall i :: i in w.jobs ==> i in w2.jobs && w2.jobs[i].cfg == w.jobs[i].cfg
    ensures w2.jobs.Keys == w.jobs.Keys && w2.txns == w.txns
  {
    hide Asked;
    SameAsks(w.jobs, w2.jobs, w.txns[t].jobs);
  }

  lemma SameAsks(a: map<JobId, Job>, b: map<JobId, Job>, list: seq<JobId>)
    requires a.Keys == b.Keys && forall i :: i in a ==> b[i].cfg == a[i].cfg
    ensures Asked(a, list) == Asked(b, list)
  {
  }

  lemma InOwnList(w: World, j: JobId, t: TxnId)
    requires Linked(w) && j in w.jobs && w.jobs[j].txn == Some(t)
    ensures t in w.txns && j in w.txns[t].jobs
  {
    assert JobIn(w, j);
  }

  lemma PendingOk(w: World, v: World, t: TxnId)
    requires Ok(w) && t in w.txns && !w.txns[t].busy && !w.txns[t].aborting && AllPending(w, v, t)
    requires forall i :: i in w.txns[t].jobs ==> i in w.jobs && w.jobs[i].status == Waiting
    ensures Ok(v)
  {
    forall i | i in v.jobs ensures JobOk(v.jobs[i]) && JobIn(v, i) {
      assert JobOk(w.jobs[i]) && JobIn(w, i);
    }
    forall u | u in v.txns ensures TxnIn(v, u) && Phase(v, u) {
      assert TxnIn(w, u) && Phase(w, u) && TxnIn(w, t);
    }
  }

  lemma PendingMoves(w: World, v: World, t: TxnId)
    requires Ok(w) && t in w.txns && !w.txns[t].busy && AllPending(w, v, t)
    requires forall i :: i in w.txns[t].jobs ==> i in w.jobs && w.jobs[i].status == Waiting
    ensures Later(w, v) && BusySame(w, v, None)
  {
    hide Later, JobOk, Phase;
    PendingLater(w, v, t);
    assert TxnIn(w, t);
    forall u, i | u in w.txns && w.txns[u].busy && i in w.txns[u].jobs
      ensures i in w.jobs && i in v.jobs && BusyMove(w.jobs[i], v.jobs[i])
    {
      assert TxnIn(w, u);
    }
  }

  lemma PendingLater(w: World, v: World, t: TxnId)
    requires t in w.txns && AllPending(w, v, t)
    requires forall i :: i in w.txns[t].jobs ==> i in w.jobs && w.jobs[i].status == Waiting
    ensures Later(w, v)
  {
  }

  /** job_txn_apply_locked with job_needs_finalize_locked. */
  method NeedNoFinalize(m: Manager, t: TxnId) returns (auto: bool)
    requires Linked(m.W()) && t in m.txns
    ensures auto <==> forall i :: i in m.txns[t].jobs && i in m.jobs ==> m.jobs[i].cfg.autoFinalize
  {
    Manager.MembersExist(m.W(), t);
    for k := 0 to |m.txns[t].jobs|
      invariant forall i :: 0 <= i < k ==> m.jobs[m.txns[t].jobs[i]].cfg.autoFinalize
    {
      if !m.jobs[m.txns[t].jobs[k]].cfg.autoFinalize {
        return false;
      }
    }
    return true;
  }

  lemma StaysCompleted(w: World, v: World, j: JobId)
    requires j in w.jobs && Completed(w.jobs[j].status) && Later(w, v)
    ensures j in v.jobs ==> Completed(v.jobs[j].status)
  {
  }

  lemma AutoFinalised(w: World, w2: World, v: World, j: JobId, t: TxnId, rc: int, bad: JobId)
    requires Linked(w) && PollWorld(w, w2) && t in w.txns && t in w2.txns && w2.txns[t].jobs == w.txns[t].jobs
    requires !w.txns[t].busy && !w2.txns[t].busy && TxnFinalised(w2, v, j, t, rc, bad)
    requires j in w2.jobs && Completed(w2.jobs[j].status)
    ensures TxnFinalised(w, v, j, t, rc, bad) && Later(w, v) && BusySame(w, v, None)
    ensures j in v.jobs ==> Completed(v.jobs[j].status)
  {
    hide Linked, Phase, Later;
    StaysCompleted(w2, v, j);
    LaterTrans(w, w2, v);
    BusyWeaker(w, w2, Some(t));
    BusyTrans(w, w2, v, Some(t));
  }

  /** job_completed_locked may be called for a job whose coroutine has ended, and for
      one never started if it is cancelled by force. */
  ghost predicate CompleteEntry(w: World, j: JobId, t: TxnId) {
    && Ok(w) && j in w.jobs && w.jobs[j].txn == Some(t) && t in w.txns && !Completed(w.jobs[j].status)
    && (w.jobs[j].co == Ended || (w.jobs[j].co == NoCo && Fated(w.jobs[j])))
  }

  /** job_completed_locked. In a transaction already aborting it only records the
      failure; otherwise it starts the abort, or reports success. */
  method CompletedLocked(m: Manager, j: JobId, ghost t: TxnId)
    requires CompleteEntry(m.W(), j, t)
    modifies m
    ensures Ok(m.W()) && Later(old(m.W()), m.W()) && BusySame(old(m.W()), m.W(), None)
    ensures j in m.jobs ==> Completed(m.jobs[j].status)
    ensures old(m.txns)[t].busy ==> m.W() == Put(old(m.W()), j, Settled(old(m.jobs[j])))
    ensures !old(m.txns)[t].busy && Fated(old(m.jobs[j])) ==>
              forall i :: i in old(m.txns)[t].jobs ==> i in m.ends && m.ends[i] == [Aborted]
  {
    hide Linked, Phase, Later, BusySame, Manager.TxnAborted, TxnFinalised, PollWorld;
    ghost var w := m.W();
    CompleteStart(w, j, t);
    m.UpdateRc(j);
    ghost var w1 := m.W();
    if m.jobs[j].ret != 0 {
      m.TxnAbort(j, t);
      CompleteAborted(w, w1, m.W(), j, t);
    } else {
      assert w1 == w;
      var _, _, _, _ := TxnSuccess(m, j, t);
    }
  }

  lemma CompleteStart(w: World, j: JobId, t: TxnId)
    requires CompleteEntry(w, j, t)
    ensures Fated(w.jobs[j]) ==>
              Stt(w.jobs[j].status, Aborting) && Manager.AbortEntry(Put(w, j, Settled(w.jobs[j])), j, t)
    ensures !Fated(w.jobs[j]) ==> Settled(w.jobs[j]) == w.jobs[j] && SuccessEntry(w, j, t)
    ensures w.txns[t].busy <==> w.txns[t].aborting
  {
    var b := Settled(w.jobs[j]);
    assert JobOk(w.jobs[j]) && Phase(w, t);
    InOwnList(w, j, t);
    PutLinked(w, j, b);
    forall u | u in w.txns ensures u != t ==> Phase(Put(w, j, b), u) {
      if u != t {
        PutPhase(w, j, b, u);
      }
    }
  }

  lemma CompleteAborted(w: World, w1: World, v: World, j: JobId, t: TxnId)
    requires CompleteEntry(w, j, t) && w1 == Put(w, j, Settled(w.jobs[j])) && Fated(w.jobs[j]) && Linked(w1)
    requires w.txns[t].busy <==> w.txns[t].aborting
    requires if w1.txns[t].aborting then v == w1 else Manager.TxnAborted(w1, v, j, t)
    ensures Later(w, v) && BusySame(w, v, None) && (j in v.jobs ==> Completed(v.jobs[j].status))
    ensures !w.txns[t].busy ==> forall i :: i in w.txns[t].jobs ==> i in v.ends && v.ends[i] == [Aborted]
  {
    hide Phase, Linked, Later, BusySame;
    SettleStep(w, j, t);
    if !w.txns[t].aborting {
      StaysCompleted(w1, v, j);
      LaterTrans(w, w1, v);
      BusyWeaker(w, w1, Some(t));
      BusyTrans(w, w1, v, Some(t));
      NotBusy(w, v, t);
    }
  }

  lemma SettleStep(w: World, j: JobId, t: TxnId)
    requires CompleteEntry(w, j, t) && Fated(w.jobs[j])
    ensures Later(w, Put(w, j, Settled(w.jobs[j]))) && BusySame(w, Put(w, j, Settled(w.jobs[j])), None)
  {
    var b := Settled(w.jobs[j]);
    assert JobOk(w.jobs[j]);
    hide Linked, Phase, Later, BusySame;
    PutLater(w, j, b);
    PutBusy(w, j, b, None);
  }

  lemma NotBusy(w: World, v: World, t: TxnId)
    requires BusySame(w, v, Some(t)) && (t in w.txns ==> !w.txns[t].busy) && (t in v.txns ==> !v.txns[t].busy)
    ensures BusySame(w, v, None)
  {
  }

  /** job_exit: the coroutine's end reaches the main loop. */
  method JobExit(m: Manager, j: JobId)
    requires Ok(m.W()) && j in m.jobs && m.jobs[j].co == Ended && !Completed(m.jobs[j].status)
    modifies m
    ensures PollWorld(old(m.W()), m.W())
    ensures j in m.jobs ==> Completed(m.jobs[j].status)
    ensures Fated(old(m.jobs[j])) && old(m.jobs[j]).txn.Some? && old(m.jobs[j]).txn.value in old(m.txns)
            && !old(m.txns)[old(m.jobs[j]).txn.value].busy ==>
              forall i :: i in old(m.txns)[old(m.jobs[j]).txn.value].jobs ==> i in m.ends && m.ends[i] == [Aborted]
  {
    hide Linked, Phase, Later, BusySame, Unreffed, PollWorld, Settled, CompleteEntry, Held;
    ghost var w := m.W();
    ghost var t := ExitTxn(w, j);
    BeginExit(m, j);
    ghost var w1 := m.W();
    ExitStart(w, w1, j, t);
    CompletedLocked(m, j, t);
    ghost var w2 := m.W();
    ExitHeld(w1, w2, j, t);
    m.Unref(j);
    ExitDone(w, w1, w2, m.W(), j, t);
  }

  method BeginExit(m: Manager, j: JobId)
    requires j in m.jobs
    modifies m`jobs
    ensures m.W() == Reffed(Put(old(m.W()), j, old(m.jobs[j]).(busy := false)), j)
  {
    ghost var w, b := m.W(), m.jobs[j];
    m.Ref(j);
    m.jobs := m.jobs[j := m.jobs[j].(busy := false)];
    PutPut(w, j, b.(refcnt := b.refcnt + 1), b.(refcnt := b.refcnt + 1, busy := false));
    PutPut(w, j, b.(busy := false), b.(busy := false, refcnt := b.refcnt + 1));
  }

  lemma ExitTxn(w: World, j: JobId) returns (t: TxnId)
    requires Linked(w) && j in w.jobs && !Completed(w.jobs[j].status)
    ensures w.jobs[j].txn == Some(t) && t in w.txns
  {
    assert JobOk(w.jobs[j]) && JobIn(w, j);
    t := w.jobs[j].txn.value;
  }

  lemma ExitStart(w: World, w1: World, j: JobId, t: TxnId)
    requires Ok(w) && j in w.jobs && w.jobs[j].co == Ended && !Completed(w.jobs[j].status)
    requires w.jobs[j].txn == Some(t) && t in w.txns
    requires w1 == Reffed(Put(w, j, w.jobs[j].(busy := false)), j)
    ensures CompleteEntry(w1, j, t) && Linked(w1) && PollWorld(w, Put(w, j, w.jobs[j].(busy := false)))
    ensures w.jobs[j].refcnt >= 1 && w.jobs[j].status != Null
  {
    hide Linked, Phase, Later, BusySame, JobOk;
    var b := w.jobs[j].(busy := false);
    IdleJob(w, j);
    PutSameView(w, j, b);
    Manager.RefOk(Put(w, j, b), j);
    assert w1.jobs[j] == b.(refcnt := b.refcnt + 1) && w1.txns == w.txns;
  }

  lemma IdleJob(w: World, j: JobId)
    requires Linked(w) && j in w.jobs && !Completed(w.jobs[j].status) && w.jobs[j].co == Ended
    ensures JobOk(w.jobs[j].(busy := false)) && w.jobs[j].refcnt >= 1 && w.jobs[j].status != Null
  {
    assert JobOk(w.jobs[j]);
  }

  lemma ExitHeld(w1: World, w2: World, j: JobId, t: TxnId)
    requires j in w1.jobs && w1.jobs[j].refcnt >= 2 && w1.jobs[j].txn == Some(t) && Later(w1, w2)
    ensures w2.jobs.Keys >= {j} && w2.jobs[j].refcnt > One(w2.jobs[j].status != Null)
    ensures j in w2.jobs && Held(w2.jobs[j]) >= 1 && (w2.jobs[j].txn == None || w2.jobs[j].txn == Some(t))
  {
  }

  lemma ExitDone(w: World, w1: World, w2: World, v: World, j: JobId, t: TxnId)
    requires Ok(w) && j in w.jobs && t in w.txns && w.jobs[j].txn == Some(t) && !Completed(w.jobs[j].status)
    requires Linked(w1)
    requires PollWorld(w, Put(w, j, w.jobs[j].(busy := false))) && w1 == Reffed(Put(w, j, w.jobs[j].(busy := false)), j)
    requires w.jobs[j].refcnt >= 1 && Ok(w2) && Later(w1, w2) && BusySame(w1, w2, None)
    requires w1.txns[t].busy ==> w2 == Put(w1, j, Settled(w1.jobs[j]))
    requires j in w2.jobs && Held(w2.jobs[j]) >= 1 && (w2.jobs[j].txn == None || w2.jobs[j].txn == Some(t))
    requires Unreffed(w2, v, j) && Linked(v) && Completed(w2.jobs[j].status)
    ensures PollWorld(w, v) && v.ends == w2.ends && (j in v.jobs ==> Completed(v.jobs[j].status))
  {
    hide Linked, Phase, Later, BusySame, Settled;
    var u := Put(w, j, w.jobs[j].(busy := false));
    UnreffedPhases(w2, v, j);
    BusyWeaker(w1, w2, Some(t));
    Bracket(u, w1, w2, v, j, Some(t));
    ExitBusySame(u, w1, w2, v, j, t);
    LaterTrans(w, u, v);
    BusyTrans(w, u, v, None);
  }

  lemma ExitBusySame(u: World, w1: World, w2: World, v: World, j: JobId, t: TxnId)
    requires Linked(u) && j in u.jobs && u.jobs[j].txn == Some(t) && t in u.txns && !Completed(u.jobs[j].status)
    requires w1 == Reffed(u, j) && j in w2.jobs && (u.txns[t].busy ==> w2 == Put(w1, j, Settled(w1.jobs[j])))
    requires u.jobs[j].refcnt >= 1 && Unreffed(w2, v, j) && BusySame(u, v, Some(t)) && BusySame(w1, w2, None)
    ensures BusySame(u, v, None)
  {
    hide Linked, BusySame, Settled, CoMove;
    if u.txns[t].busy {
      SettledRefs(w1.jobs[j]);
      ExitBusy(u, w1, w2, v, j, t);
    } else {
      StaysCalm(w1, w2, t);
      NotBusy(u, v, t);
    }
  }

  lemma StaysCalm(w: World, v: World, t: TxnId)
    requires BusySame(w, v, None) && t in w.txns && !w.txns[t].busy
    ensures t in v.txns ==> !v.txns[t].busy
  {
  }

  lemma SettledRefs(b: Job)
    ensures Settled(b).refcnt == b.refcnt
  {
  }

  lemma ExitBusy(u: World, w1: World, w2: World, v: World, j: JobId, t: TxnId)
    requires Linked(u) && j in u.jobs && u.jobs[j].txn == Some(t) && !Completed(u.jobs[j].status)
    requires w1 == Reffed(u, j) && w2 == Put(w1, j, Settled(w1.jobs[j]))
    requires v == Put(w2, j, w2.jobs[j].(refcnt := w2.jobs[j].refcnt - 1))
    ensures BusySame(u, v, None)
  {
    hide Linked, BusySame, BusyMove, Settled;
    var a := u.jobs[j].(refcnt := u.jobs[j].refcnt + 1);
    var c := Settled(a).(refcnt := Settled(a).refcnt - 1);
    SettledBusy(u.jobs[j], a, Settled(a));
    PutPut(u, j, a, Settled(a));
    PutPut(u, j, Settled(a), c);
    PutBusy(u, j, c, None);
  }

  lemma SettledBusy(b: Job, a: Job, c: Job)
    requires !Completed(b.status) && a == b.(refcnt := b.refcnt + 1) && c == Settled(a)
    ensures BusyMove(b, c.(refcnt := c.refcnt - 1))
  {
    hide Completed;
    assert a.txn == b.txn && a.cfg == b.cfg && a.cancelled == b.cancelled && a.force == b.force;
  }
}
