/** A job's life apart from its end: creation, start, pauses by users and by drained
    sections, changes of its copy mode, and the steps of its coroutine. Each step accounts
    for every pause, those in flight and those leaked included; the two places where a
    lock release can catch the pause count, or the I/O status, off balance come with the
    exact condition. */
module JobPause {
  import opened Options
  import opened Numbers
  import opened Seqs
  import opened Jobs
  import opened JobManager
  import opened JobOps
  import opened JobCancel

  // ---------------------------------------------------------------------------
  // Creation and start.

  /** job_create into an existing transaction in which no job waits to be finalised. */
  method Create(m: Manager, j: JobId, t: TxnId, cfg: Config)
    requires Ok(m.W()) && j !in m.ends && t in m.txns && !m.txns[t].busy && !m.txns[t].aborting
    requires forall i :: i in m.txns[t].jobs && i in m.jobs ==> m.jobs[i].status != Pending
    modifies m`jobs, m`txns, m`ends
    ensures PollWorld(old(m.W()), m.W()) && m.W() == WithJob(old(m.W()), j, t, cfg)
  {
    hide Linked, Phase, Later, BusySame, PollWorld;
    ghost var w := m.W();
    CreateKeeps(w, j, t, cfg);
    m.jobs := m.jobs[j := NewJob(t, cfg)];
    m.txns := m.txns[t := m.txns[t].(jobs := [j] + m.txns[t].jobs, refcnt := m.txns[t].refcnt + 1)];
    m.ends := m.ends[j := []];
  }

  function NewJob(t: TxnId, cfg: Config): Job {
    Job(Created, 0, false, false, false, false, true, 1, false, false, NoCo, Some(t), 1, cfg, 0, 0, 0, false,
        Guest(cfg.mode == WriteBlocking, false))
  }

  function WithJob(w: World, j: JobId, t: TxnId, cfg: Config): World
    requires t in w.txns
  {
    World(w.jobs[j := NewJob(t, cfg)],
          w.txns[t := w.txns[t].(jobs := [j] + w.txns[t].jobs, refcnt := w.txns[t].refcnt + 1)],
          w.ends[j := []])
  }

  lemma CreateKeeps(w: World, j: JobId, t: TxnId, cfg: Config)
    requires Ok(w) && j !in w.ends && t in w.txns && !w.txns[t].busy && !w.txns[t].aborting
    requires forall i :: i in w.txns[t].jobs && i in w.jobs ==> w.jobs[i].status != Pending
    ensures PollWorld(w, WithJob(w, j, t, cfg))
  {
    hide Phase, Later, BusySame;
    var v := WithJob(w, j, t, cfg);
    FreshJob(w, j);
    CreateLinked(w, j, t, cfg);
    CreateMoves(w, j, t, cfg);
    forall u | u in v.txns ensures Phase(v, u) {
      CreatePhase(w, j, t, cfg, u);
    }
  }

  lemma FreshJob(w: World, j: JobId)
    requires Linked(w) && j !in w.ends
    ensures j !in w.jobs
  {
    assert j in w.jobs ==> JobIn(w, j);
  }

  lemma CreatePhase(w: World, j: JobId, t: TxnId, cfg: Config, u: TxnId)
    requires Linked(w) && j !in w.jobs && t in w.txns && !w.txns[t].busy && !w.txns[t].aborting
    requires forall i :: i in w.txns[t].jobs && i in w.jobs ==> w.jobs[i].status != Pending
    requires u in w.txns && Phase(w, u)
    ensures Phase(WithJob(w, j, t, cfg), u)
  {
    assert TxnIn(w, u);
  }

  lemma CreateMoves(w: World, j: JobId, t: TxnId, cfg: Config)
    requires Linked(w) && j !in w.ends && j !in w.jobs && t in w.txns && !w.txns[t].busy
    ensures Later(w, WithJob(w, j, t, cfg)) && BusySame(w, WithJob(w, j, t, cfg), None)
  {
    hide BusySame, JobOk, JobIn, Linked;
    CreateBusy(w, j, t, cfg);
  }

  lemma CreateBusy(w: World, j: JobId, t: TxnId, cfg: Config)
    requires Linked(w) && j !in w.jobs && t in w.txns && !w.txns[t].busy
    ensures BusySame(w, WithJob(w, j, t, cfg), None)
  {
    hide JobOk, JobIn;
    forall u | u in w.txns ensures TxnIn(w, u) {
    }
  }

  lemma CreateLinked(w: World, j: JobId, t: TxnId, cfg: Config)
    requires Linked(w) && j !in w.ends && j !in w.jobs && t in w.txns
    ensures Linked(WithJob(w, j, t, cfg))
  {
    var v := WithJob(w, j, t, cfg);
    forall i | i in v.jobs ensures JobOk(v.jobs[i]) && JobIn(v, i) {
      assert i != j ==> JobOk(w.jobs[i]) && JobIn(w, i);
    }
    forall u | u in v.txns ensures TxnIn(v, u) {
      assert TxnIn(w, u);
    }
  }

  /** job_txn_new: an empty transaction. */
  method NewTxn(m: Manager, t: TxnId)
    requires Ok(m.W()) && t !in m.txns
    modifies m`txns
    ensures PollWorld(old(m.W()), m.W()) && m.txns == old(m.txns)[t := Txn(false, [], 1, false)]
  {
    hide Linked, Phase, Later, BusySame, PollWorld;
    NewTxnKeeps(m.W(), t);
    m.txns := m.txns[t := Txn(false, [], 1, false)];
  }

  lemma NewTxnKeeps(w: World, t: TxnId)
    requires Ok(w) && t !in w.txns
    ensures PollWorld(w, w.(txns := w.txns[t := Txn(false, [], 1, false)]))
  {
    var v := w.(txns := w.txns[t := Txn(false, [], 1, false)]);
    NewTxnLinked(w, t);
    NewTxnMoves(w, t);
    hide Later, BusySame, Linked;
    forall u | u in v.txns ensures Phase(v, u) {
      assert u != t ==> Phase(w, u);
    }
  }

  lemma NewTxnLinked(w: World, t: TxnId)
    requires Linked(w) && t !in w.txns
    ensures Linked(w.(txns := w.txns[t := Txn(false, [], 1, false)]))
  {
    var v := w.(txns := w.txns[t := Txn(false, [], 1, false)]);
    forall i | i in v.jobs ensures JobIn(v, i) {
      assert JobIn(w, i);
    }
    forall u | u in v.txns ensures TxnIn(v, u) {
      assert u != t ==> TxnIn(w, u);
    }
  }

  lemma NewTxnMoves(w: World, t: TxnId)
    requires Linked(w) && t !in w.txns
    ensures Later(w, w.(txns := w.txns[t := Txn(false, [], 1, false)]))
    ensures BusySame(w, w.(txns := w.txns[t := Txn(false, [], 1, false)]), None)
  {
    forall u | u in w.txns ensures TxnIn(w, u) {
    }
  }

  /** job_start. */
  method Start(m: Manager, j: JobId)
    requires Ok(m.W()) && j in m.jobs && m.jobs[j].status == Created
    modifies m`jobs
    ensures PollWorld(old(m.W()), m.W()) && m.W() == Put(old(m.W()), j, Started(old(m.jobs[j])))
  {
    hide Linked, Phase, Later, BusySame, PollWorld;
    ghost var w := m.W();
    StartKeeps(w, j);
    m.jobs := m.jobs[j := m.jobs[j].(co := Body, pauseCount := m.jobs[j].pauseCount - 1, busy := true,
        paused := false)];
    ghost var w1 := m.W();
    m.Transition(j, Running);
    PutPut(w, j, w1.jobs[j], m.jobs[j]);
  }

  function Started(b: Job): Job {
    b.(co := Body, pauseCount := b.pauseCount - 1, busy := true, paused := false, status := Running)
  }

  lemma StartKeeps(w: World, j: JobId)
    requires Ok(w) && j in w.jobs && w.jobs[j].status == Created
    ensures PollWorld(w, Put(w, j, Started(w.jobs[j])))
  {
    var b := Started(w.jobs[j]);
    StartMoves(w, j);
    PutLinked(w, j, b);
    PutLater(w, j, b);
    PutBusy(w, j, b, None);
    hide Linked, Later, BusySame;
    forall u | u in w.txns ensures Phase(Put(w, j, b), u) {
      OpenPhase(w, j, b, u);
    }
  }

  lemma StartMoves(w: World, j: JobId)
    requires Linked(w) && j in w.jobs && w.jobs[j].status == Created
    ensures JobOk(Started(w.jobs[j])) && BusyMove(w.jobs[j], Started(w.jobs[j]))
    ensures Held(Started(w.jobs[j])) == Held(w.jobs[j])
  {
    assert JobOk(w.jobs[j]);
  }

  /** A job that is not completed before and after, and not released from a forced
      cancellation, does not matter to its transaction. */
  lemma OpenPhase(w: World, j: JobId, b: Job, u: TxnId)
    requires Linked(w) && j in w.jobs && u in w.txns && Phase(w, u)
    requires !Completed(w.jobs[j].status) && !Completed(b.status) && (w.jobs[j].force ==> b.force)
    ensures Phase(Put(w, j, b), u)
  {
    assert TxnIn(w, u);
  }

  // ---------------------------------------------------------------------------
  // Pausing from outside.

  /** A drained section begins (1) or ends (-1). */
  function Drained(b: Job, d: int): Job
    requires b.drains + d >= 0
  {
    b.(pauseCount := b.pauseCount + d, drains := b.drains + d)
  }

  /** job_pause_locked for a drained section. */
  method DrainBegin(m: Manager, j: JobId)
    requires Ok(m.W()) && j in m.jobs
    modifies m
    ensures PollWorld(old(m.W()), m.W())
    ensures Entered(Put(old(m.W()), j, Drained(old(m.jobs[j]), 1)), m.W(), j, !old(m.jobs[j]).paused)
  {
    hide Linked, Phase, Later, BusySame, PollWorld, Entered;
    ghost var w := m.W();
    DrainKeeps(w, j, 1);
    var b := m.jobs[j];
    m.jobs := m.jobs[j := b.(pauseCount := b.pauseCount + 1, drains := b.drains + 1)];
    PausedThen(m, j, w);
  }

  /** The second half of job_pause_locked. */
  method PausedThen(m: Manager, j: JobId, ghost w: World)
    requires Linked(w) && PollWorld(w, m.W()) && j in m.jobs
    modifies m
    ensures PollWorld(w, m.W()) && Entered(old(m.W()), m.W(), j, !old(m.jobs[j]).paused)
  {
    hide Linked, Phase, Later, BusySame, PollWorld, CoWorld;
    ghost var w1 := m.W();
    PollGives(w, w1);
    if !m.jobs[j].paused {
      EnterCond(m, j, true);
      PollTrans(w, w1, m.W());
    }
  }

  lemma DrainKeeps(w: World, j: JobId, d: int)
    requires Ok(w) && j in w.jobs && w.jobs[j].drains + d >= 0
    ensures PollWorld(w, Put(w, j, Drained(w.jobs[j], d)))
  {
    hide Linked, Phase, PollWorld, JobOk, SameView;
    LinkedJob(w, j);
    DrainedView(w.jobs[j], d);
    PutSameView(w, j, Drained(w.jobs[j], d));
  }

  lemma DrainedView(b: Job, d: int)
    requires JobOk(b) && b.drains + d >= 0
    ensures JobOk(Drained(b, d)) && SameView(b, Drained(b, d))
  {
  }

  /** job_resume_locked for a drained section; the assertion on the count holds. */
  method DrainEnd(m: Manager, j: JobId, timerIdle: bool)
    requires Ok(m.W()) && j in m.jobs && m.jobs[j].drains > 0
    modifies m
    ensures PollWorld(old(m.W()), m.W())
    ensures Entered(Put(old(m.W()), j, Drained(old(m.jobs[j]), -1)), m.W(), j,
                    timerIdle && old(m.jobs[j]).pauseCount == 1)
  {
    hide Linked, Phase, Later, BusySame, PollWorld, Entered;
    ghost var w := m.W();
    CountPositive(w, j);
    assert m.jobs[j].pauseCount > 0;
    DrainKeeps(w, j, -1);
    var b := m.jobs[j];
    m.jobs := m.jobs[j := b.(pauseCount := b.pauseCount - 1, drains := b.drains - 1)];
    ResumedThen(m, j, timerIdle, w);
  }

  /** The second half of job_resume_locked. */
  method ResumedThen(m: Manager, j: JobId, timerIdle: bool, ghost w: World)
    requires Linked(w) && PollWorld(w, m.W()) && j in m.jobs
    modifies m
    ensures PollWorld(w, m.W()) && Entered(old(m.W()), m.W(), j, timerIdle && old(m.jobs[j]).pauseCount == 0)
  {
    hide Linked, Phase, Later, BusySame, PollWorld, CoWorld;
    ghost var w1 := m.W();
    PollGives(w, w1);
    if m.jobs[j].pauseCount == 0 {
      EnterCond(m, j, timerIdle);
      PollTrans(w, w1, m.W());
    }
  }

  lemma CountPositive(w: World, j: JobId)
    requires Linked(w) && j in w.jobs && (w.jobs[j].drains > 0 || w.jobs[j].userPaused)
    ensures w.jobs[j].pauseCount > 0
  {
    assert JobOk(w.jobs[j]);
  }

  /** job_user_pause_locked. */
  method UserPause(m: Manager, j: JobId) returns (refused: bool)
    requires Ok(m.W()) && j in m.jobs
    modifies m
    ensures refused <==> !Accepts(PauseVerb, old(m.jobs[j]).status) || old(m.jobs[j]).userPaused
    ensures refused ==> m.W() == old(m.W())
    ensures !refused ==> Entered(Put(old(m.W()), j, Hold(old(m.jobs[j]))), m.W(), j, !old(m.jobs[j]).paused)
    ensures PollWorld(old(m.W()), m.W())
  {
    hide Linked, Phase, Later, BusySame, PollWorld, Entered;
    ghost var w := m.W();
    Manager.PollSelf(w);
    refused := !Accepts(PauseVerb, m.jobs[j].status) || m.jobs[j].userPaused;
    if refused {
      return;
    }
    UserPauseKeeps(w, j);
    m.jobs := m.jobs[j := m.jobs[j].(userPaused := true, pauseCount := m.jobs[j].pauseCount + 1)];
    PausedThen(m, j, w);
  }

  /** A user pause; Lift takes it back. */
  function Hold(b: Job): Job {
    b.(userPaused := true, pauseCount := b.pauseCount + 1)
  }

  lemma UserPauseKeeps(w: World, j: JobId)
    requires Ok(w) && j in w.jobs && !w.jobs[j].userPaused
    ensures PollWorld(w, Put(w, j, Hold(w.jobs[j])))
  {
    assert JobOk(w.jobs[j]);
    PutSameView(w, j, Hold(w.jobs[j]));
  }

  /** job_user_resume_locked. */
  method UserResume(m: Manager, j: JobId, timerIdle: bool) returns (refused: bool, ghost mid: World)
    requires Ok(m.W()) && j in m.jobs
    modifies m
    ensures refused <==> !old(m.jobs[j]).userPaused || !Accepts(ResumeVerb, old(m.jobs[j]).status)
    ensures refused ==> m.W() == old(m.W())
    ensures !refused ==>
              && (if old(m.jobs[j]).cfg.hasUserResume then CoWorld(old(m.W()), mid) else mid == old(m.W()))
              && j in mid.jobs && mid.jobs[j].userPaused
              && var after := Lift(mid.jobs[j], Silent(old(m.jobs[j])));
                 && Resumes(old(m.jobs[j]), after)
                 && Entered(Put(mid, j, after), m.W(), j, timerIdle && mid.jobs[j].pauseCount == 1)
    ensures PollWorld(old(m.W()), m.W())
  {
    hide Linked, Phase, Later, BusySame, PollWorld, Entered, Called, Resumes, Silent, Lift;
    ghost var w := m.W();
    mid := w;
    Manager.PollSelf(w);
    if m.jobs[j].userPaused {
      CountPositive(w, j);
    }
    refused := !m.jobs[j].userPaused || m.jobs[j].pauseCount <= 0 || !Accepts(ResumeVerb, m.jobs[j].status);
    if refused {
      return;
    }
    var silent := Silent(m.jobs[j]);
    if m.jobs[j].cfg.hasUserResume {
      m.UserResumeCallback(j);
      CoIsPoll(w, m.W());
    }
    ghost var w1 := m.W();
    mid := w1;
    PollGives(w, w1);
    LiftKeeps(w, w1, j);
    m.jobs := m.jobs[j := Lift(m.jobs[j], silent)];
    PollTrans(w, w1, m.W());
    ResumedThen(m, j, timerIdle, w);
  }

  lemma LiftKeeps(w: World, w1: World, j: JobId)
    requires Ok(w) && Ok(w1) && j in w.jobs && w.jobs[j].userPaused
    requires if w.jobs[j].cfg.hasUserResume then CoWorld(w, w1) && Called(w.jobs[j], w1.jobs[j]) else w1 == w
    ensures var after := Lift(w1.jobs[j], Silent(w.jobs[j]));
            && w1.jobs[j].userPaused && w1.jobs[j].pauseCount > 0 && after.pauseCount == w1.jobs[j].pauseCount - 1
            && PollWorld(w1, Put(w1, j, after)) && Resumes(w.jobs[j], after)
  {
    hide Linked, Phase, Later, BusySame, CoMove, Called, Resumes, Silent;
    LinkedJob(w, j);
    CoMoveSelf(w.jobs[j]);
    LiftMoves(w.jobs[j], w.jobs[j], w1.jobs[j]);
    LiftView(w.jobs[j], w1.jobs[j], Silent(w.jobs[j]));
    PutSameView(w1, j, Lift(w1.jobs[j], Silent(w.jobs[j])));
  }

  lemma LinkedJob(w: World, j: JobId)
    requires Linked(w) && j in w.jobs
    ensures JobOk(w.jobs[j])
  {
  }

  lemma LiftView(a: Job, c: Job, silent: bool)
    requires CoMove(a, c) && a.userPaused && StayMove(a, Lift(c, silent))
    ensures c.userPaused && JobOk(Lift(c, silent)) && SameView(c, Lift(c, silent))
  {
  }

  // ---------------------------------------------------------------------------
  // The copy mode.

  datatype ChangeError = Refused | Unsupported | NotImplemented

  /** What block_job_change_locked and mirror_change object to. */
  function ChangeFault(b: Job, mode: CopyMode): Option<ChangeError> {
    if !Accepts(ChangeVerb, b.status) then Some(Refused)
    else if b.cfg.mode == NoMode then Some(Unsupported)
    else if b.guest.blocking && mode != WriteBlocking then Some(NotImplemented)
    else None
  }

  /** The mode goes from background to write-blocking and never back. */
  function Changed(b: Job, mode: CopyMode): Job {
    b.(guest := b.guest.(blocking := b.guest.blocking || mode == WriteBlocking))
  }

  /** block_job_change_locked; the lock is dropped around the driver's callback, and `mid` is
      the world it finds. */
  method Change(m: Manager, j: JobId, mode: CopyMode) returns (err: Option<ChangeError>, ghost mid: World)
    requires Ok(m.W()) && j in m.jobs && mode != NoMode
    modifies m
    ensures err == ChangeFault(old(m.jobs[j]), mode) && PollWorld(old(m.W()), m.W())
    ensures err in {Some(Refused), Some(Unsupported)} ==> m.W() == old(m.W())
    ensures err !in {Some(Refused), Some(Unsupported)} ==>
              CoWorld(old(m.W()), mid) && j in mid.jobs && CoWorld(Put(mid, j, Changed(mid.jobs[j], mode)), m.W())
    ensures err !in {Some(Refused), Some(Unsupported)} && j in m.jobs ==>
              m.jobs[j].guest.blocking == (old(m.jobs[j]).guest.blocking || mode == WriteBlocking)
  {
    hide Linked, Phase, Later, BusySame, PollWorld, CoMove, JobOk;
    ghost var w := m.W();
    mid, err := w, None;
    Manager.PollSelf(w);
    if !Accepts(ChangeVerb, m.jobs[j].status) {
      return Some(Refused), mid;
    }
    if m.jobs[j].cfg.mode == NoMode {
      return Some(Unsupported), mid;
    }
    var _ := m.Short();
    mid := m.W();
    SameMode(w.jobs[j], mid.jobs[j]);
    CoIsPoll(w, mid);
    PollGives(w, mid);
    ChangedKeeps(mid, j, mode);
    if m.jobs[j].guest.blocking != (mode == WriteBlocking) {
      if mode != WriteBlocking {
        err := Some(NotImplemented);
      } else {
        m.jobs := m.jobs[j := m.jobs[j].(guest := m.jobs[j].guest.(blocking := true))];
      }
    }
    ghost var w1 := m.W();
    assert w1 == Put(mid, j, Changed(mid.jobs[j], mode));
    PollTrans(w, mid, w1);
    PollGives(w, w1);
    var _ := m.Short();
    SameMode(w1.jobs[j], m.jobs[j]);
    CoIsPoll(w1, m.W());
    PollTrans(w, w1, m.W());
  }

  lemma SameMode(a: Job, b: Job)
    requires CoMove(a, b)
    ensures b.guest.blocking == a.guest.blocking && b.cfg == a.cfg
  {
  }

  lemma ChangedKeeps(w: World, j: JobId, mode: CopyMode)
    requires Ok(w) && j in w.jobs && w.jobs[j].cfg.mode != NoMode
    ensures PollWorld(w, Put(w, j, Changed(w.jobs[j], mode)))
    ensures w.jobs[j].guest.blocking || mode != WriteBlocking ==> Put(w, j, Changed(w.jobs[j], mode)) == w
  {
    hide Linked, Phase, PollWorld, JobOk, SameView;
    LinkedJob(w, j);
    ChangedView(w.jobs[j], mode);
    PutSameView(w, j, Changed(w.jobs[j], mode));
    if w.jobs[j].guest.blocking || mode != WriteBlocking {
      PutSame(w, j);
    }
  }

  lemma ChangedView(b: Job, mode: CopyMode)
    requires JobOk(b) && b.cfg.mode != NoMode
    ensures JobOk(Changed(b, mode)) && SameView(b, Changed(b, mode))
    ensures b.guest.blocking || mode != WriteBlocking ==> Changed(b, mode) == b
  {
  }

  // ---------------------------------------------------------------------------
  // The coroutine.

  lemma CoStep(w: World, j: JobId, b: Job)
    requires Linked(w) && j in w.jobs && CoMove(w.jobs[j], b)
    ensures CoWorld(w, Put(w, j, b))
  {
    forall i | i in w.jobs ensures CoMove(w.jobs[i], Put(w, j, b).jobs[i]) {
      if i != j {
        CoMoveSelf(w.jobs[i]);
      }
    }
  }

  /** job_pause_point_locked, up to the driver's pause callback. */
  method PausePoint(m: Manager, j: JobId)
    requires Linked(m.W()) && j in m.jobs && m.jobs[j].co == Body && m.jobs[j].busy
    modifies m`jobs
    ensures CoWorld(old(m.W()), m.W())
    ensures m.W() == Put(old(m.W()), j, old(m.jobs[j]).(co :=
                         if old(m.jobs[j]).pauseCount > 0 && !old(m.jobs[j]).force then PauseCb else Body))
  {
    ghost var w := m.W();
    var b := m.jobs[j];
    assert JobOk(b);
    if b.pauseCount > 0 && !b.force {
      b := b.(co := PauseCb);
    }
    CoStep(w, j, b);
    hide Linked, CoMove;
    m.jobs := m.jobs[j := b];
  }

  /** From the callback to the yield: paused exactly if still asked to. */
  method PausePointYield(m: Manager, j: JobId)
    requires Linked(m.W()) && j in m.jobs && m.jobs[j].co == PauseCb
    modifies m`jobs
    ensures CoWorld(old(m.W()), m.W())
    ensures m.W() == Put(old(m.W()), j,
                         if old(m.jobs[j]).pauseCount > 0 && !old(m.jobs[j]).force
                         then AtYield(old(m.jobs[j])) else old(m.jobs[j]).(co := ResumeCb))
  {
    ghost var w := m.W();
    var b := m.jobs[j];
    YieldMoves(w, j);
    hide Linked, CoMove;
    if b.pauseCount > 0 && !b.force {
      m.Transition(j, if b.status == Ready then Standby else Paused);
      ghost var c := m.jobs[j];
      m.jobs := m.jobs[j := m.jobs[j].(paused := true, busy := false, co := AtPause(b.status))];
      PutPut(w, j, c, m.jobs[j]);
      CoStep(w, j, AtYield(b));
    } else {
      m.jobs := m.jobs[j := b.(co := ResumeCb)];
      CoStep(w, j, b.(co := ResumeCb));
    }
  }

  function AtYield(b: Job): Job {
    b.(status := if b.status == Ready then Standby else Paused, paused := true, busy := false, co := AtPause(b.status))
  }

  lemma YieldMoves(w: World, j: JobId)
    requires Linked(w) && j in w.jobs && w.jobs[j].co == PauseCb
    ensures Stt(w.jobs[j].status, if w.jobs[j].status == Ready then Standby else Paused) && !w.jobs[j].paused
    ensures CoMove(w.jobs[j], AtYield(w.jobs[j])) && CoMove(w.jobs[j], w.jobs[j].(co := ResumeCb))
  {
    assert JobOk(w.jobs[j]);
  }

  /** The coroutine is entered again: back to the status it had. */
  method PausePointWake(m: Manager, j: JobId)
    requires Linked(m.W()) && j in m.jobs && m.jobs[j].co.AtPause? && m.jobs[j].busy
    modifies m`jobs
    ensures CoWorld(old(m.W()), m.W())
    ensures m.W() == Put(old(m.W()), j, Awake(old(m.jobs[j])))
  {
    ghost var w := m.W();
    var b := m.jobs[j];
    WakeMoves(w, j);
    hide Linked, CoMove;
    m.Transition(j, b.co.saved);
    ghost var c := m.jobs[j];
    m.jobs := m.jobs[j := m.jobs[j].(paused := false, co := ResumeCb)];
    PutPut(w, j, c, m.jobs[j]);
    CoStep(w, j, Awake(b));
  }

  function Awake(b: Job): Job
    requires b.co.AtPause?
  {
    b.(status := b.co.saved, paused := false, co := ResumeCb)
  }

  lemma WakeMoves(w: World, j: JobId)
    requires Linked(w) && j in w.jobs && w.jobs[j].co.AtPause? && w.jobs[j].busy
    ensures Stt(w.jobs[j].status, w.jobs[j].co.saved)
    ensures CoMove(w.jobs[j], Awake(w.jobs[j]))
  {
    assert JobOk(w.jobs[j]);
  }

  /** The driver's resume callback has returned. */
  method PausePointDone(m: Manager, j: JobId)
    requires Linked(m.W()) && j in m.jobs && m.jobs[j].co == ResumeCb
    modifies m`jobs
    ensures CoWorld(old(m.W()), m.W()) && m.W() == Put(old(m.W()), j, old(m.jobs[j]).(co := Body))
  {
    assert JobOk(m.jobs[j]);
    CoStep(m.W(), j, m.jobs[j].(co := Body));
    hide Linked, CoMove;
    m.jobs := m.jobs[j := m.jobs[j].(co := Body)];
  }

  /** job_do_yield_locked from the driver's code: the coroutine sleeps until it is woken. */
  method Sleep(m: Manager, j: JobId)
    requires Linked(m.W()) && j in m.jobs && m.jobs[j].co == Body && m.jobs[j].busy
    modifies m`jobs
    ensures CoWorld(old(m.W()), m.W()) && m.W() == Put(old(m.W()), j, old(m.jobs[j]).(busy := false))
  {
    assert JobOk(m.jobs[j]);
    CoStep(m.W(), j, m.jobs[j].(busy := false));
    hide Linked, CoMove;
    m.jobs := m.jobs[j := m.jobs[j].(busy := false)];
  }

  /** mirror_run has set the job up: from here on the filter above the source knows it. */
  method Attach(m: Manager, j: JobId)
    requires Linked(m.W()) && j in m.jobs && m.jobs[j].co == Body && m.jobs[j].busy && m.jobs[j].cfg.mode != NoMode
    modifies m`jobs
    ensures CoWorld(old(m.W()), m.W()) && m.W() == Put(old(m.W()), j, Known(old(m.jobs[j])))
  {
    assert JobOk(m.jobs[j]);
    CoStep(m.W(), j, Known(m.jobs[j]));
    hide Linked, CoMove;
    m.jobs := m.jobs[j := Known(m.jobs[j])];
  }

  function Known(b: Job): Job {
    b.(guest := b.guest.(attached := true))
  }

  /** job_transition_to_ready, once, from the driver's code. */
  method TransitionToReady(m: Manager, j: JobId)
    requires Linked(m.W()) && j in m.jobs && m.jobs[j].co == Body && m.jobs[j].busy && m.jobs[j].status == Running
    modifies m`jobs
    ensures CoWorld(old(m.W()), m.W()) && m.W() == Put(old(m.W()), j, old(m.jobs[j]).(status := Ready))
  {
    assert JobOk(m.jobs[j]);
    CoStep(m.W(), j, m.jobs[j].(status := Ready));
    hide Linked, CoMove;
    m.Transition(j, Ready);
  }

  /** The end of job_co_entry; job_exit will follow in the main loop. A mirror job has begun a
      drained section that lasts until then, so no guest write is under way. */
  method RunEnds(m: Manager, j: JobId, ret: int)
    requires Linked(m.W()) && j in m.jobs && m.jobs[j].co == Body && m.jobs[j].busy
    modifies m`jobs
    ensures CoWorld(old(m.W()), m.W())
    ensures m.W() == Put(old(m.W()), j, old(m.jobs[j]).(ret := ret, deferred := true, busy := true, co := Ended,
                         guest := old(m.jobs[j]).guest.(attached := false)))
  {
    assert JobOk(m.jobs[j]);
    CoStep(m.W(), j, m.jobs[j].(ret := ret, deferred := true, busy := true, co := Ended,
                         guest := m.jobs[j].guest.(attached := false)));
    hide Linked, CoMove;
    m.jobs := m.jobs[j := m.jobs[j].(ret := ret, deferred := true, busy := true, co := Ended,
                         guest := m.jobs[j].guest.(attached := false))];
  }

  // ---------------------------------------------------------------------------
  // I/O errors.

  /** block_job_error_action has paused the job, and the pause is not yet its user's. */
  function Pausing(b: Job): Job {
    b.(pauseCount := b.pauseCount + 1, inFlight := b.inFlight + 1)
  }

  /** It makes the pause the user's. One that somebody else made meanwhile is not counted
      again, and the one in flight is lost. */
  function Visible(c: Job): Job
    requires c.inFlight >= 1
  {
    c.(inFlight := c.inFlight - 1, userPaused := true, ioError := true, leaks := c.leaks + One(c.userPaused))
  }

  /** block_job_error_action with the answer "stop", from any coroutine of a job that is
      not parked, or from a guest write that a parked one copies. `caught` is the job as
      others find it if the lock is dropped to wake the job's own coroutine, `mid` the world
      they leave. */
  method ErrorAction(m: Manager, j: JobId) returns (ghost caught: Option<Job>, ghost mid: World)
    requires Ok(m.W()) && j in m.jobs && !Silent(m.jobs[j]) && m.jobs[j].cfg.hasUserResume
    modifies m
    ensures PollWorld(old(m.W()), m.W())
    ensures var b := old(m.jobs[j]);
            caught == if !b.userPaused && !b.paused && Enterable(b) then Some(Pausing(b).(busy := true)) else None
    ensures caught.Some? ==> !PauseExact(caught.value) && PollWorld(Put(old(m.W()), j, caught.value), mid)
    ensures var b := old(m.jobs[j]);
            if b.userPaused then m.W() == Put(old(m.W()), j, b.(ioError := true))
            else j in mid.jobs && mid.jobs[j].inFlight >= 1 && m.W() == Put(mid, j, Visible(mid.jobs[j]))
                 && (caught == None ==> mid == Put(old(m.W()), j, Pausing(b)))
    ensures caught == None ==> j in m.jobs && m.jobs[j].leaks == old(m.jobs[j]).leaks
  {
    hide Linked, Phase, Later, BusySame, PollWorld, JobOk;
    ghost var w := m.W();
    var b := m.jobs[j];
    caught, mid := None, w;
    if b.userPaused {
      ErrorKeeps(w, j);
      m.jobs := m.jobs[j := b.(ioError := true)];
      return;
    }
    PausingKeeps(w, j);
    m.jobs := m.jobs[j := Pausing(b)];
    mid := m.W();
    if !b.paused && Enterable(b) {
      m.jobs := m.jobs[j := m.jobs[j].(busy := true)];
      PutPut(w, j, Pausing(b), Pausing(b).(busy := true));
      caught := Some(Pausing(b).(busy := true));
      CaughtOff(w, j);
      PollGives(w, m.W());
      m.PollInFlight(j);
      PollTrans(w, mid.(jobs := mid.jobs[j := caught.value]), m.W());
      mid := m.W();
    }
    PollGives(w, mid);
    VisibleKeeps(mid, j);
    m.jobs := m.jobs[j := Visible(m.jobs[j])];
    PollTrans(w, mid, m.W());
  }

  lemma ErrorKeeps(w: World, j: JobId)
    requires Ok(w) && j in w.jobs && w.jobs[j].userPaused && w.jobs[j].cfg.hasUserResume
    ensures PollWorld(w, Put(w, j, w.jobs[j].(ioError := true)))
  {
    assert JobOk(w.jobs[j]);
    PutSameView(w, j, w.jobs[j].(ioError := true));
  }

  lemma PausingKeeps(w: World, j: JobId)
    requires Ok(w) && j in w.jobs
    ensures PollWorld(w, Put(w, j, Pausing(w.jobs[j])))
  {
    assert JobOk(w.jobs[j]);
    PutSameView(w, j, Pausing(w.jobs[j]));
  }

  /** At the release in the middle the count is one too high. */
  lemma CaughtOff(w: World, j: JobId)
    requires Ok(w) && j in w.jobs
    ensures PollWorld(w, Put(w, j, Pausing(w.jobs[j]).(busy := true)))
    ensures !PauseExact(Pausing(w.jobs[j]).(busy := true))
  {
    assert JobOk(w.jobs[j]);
    PutSameView(w, j, Pausing(w.jobs[j]).(busy := true));
  }

  lemma VisibleKeeps(w: World, j: JobId)
    requires Ok(w) && j in w.jobs && w.jobs[j].inFlight >= 1 && w.jobs[j].cfg.hasUserResume
    ensures PollWorld(w, Put(w, j, Visible(w.jobs[j])))
  {
    assert JobOk(w.jobs[j]);
    PutSameView(w, j, Visible(w.jobs[j]));
  }

  /** A pause is lost for good: the lock is dropped in the middle of the error action, the
      user pauses the job, and later resumes it; the job stays paused with nobody left to
      resume it. */
  lemma ErrorActionLeak(w: World, j: JobId)
    requires Ok(w) && j in w.jobs && !w.jobs[j].userPaused && !w.jobs[j].paused && Enterable(w.jobs[j])
    requires PauseExact(w.jobs[j]) && w.jobs[j].drains == 0
    ensures var caught := Pausing(w.jobs[j]).(busy := true);
            && PollWorld(Put(w, j, caught), Put(w, j, Hold(caught)))
            && Hold(caught).inFlight >= 1
            && var after := Lift(Visible(Hold(caught)), true);
               after.pauseCount == 1 && !after.userPaused && after.drains == 0 && after.inFlight == 0
                   && after.leaks == 1
  {
    hide Linked, Phase, Later, BusySame, JobOk, Pausing, Hold, Lift, Visible, PollWorld;
    var caught := Pausing(w.jobs[j]).(busy := true);
    LinkedJob(w, j);
    LeakedJob(w.jobs[j]);
    CaughtOff(w, j);
    PollGives(w, Put(w, j, caught));
    UserPauseKeeps(Put(w, j, caught), j);
    PutPut(w, j, caught, Hold(caught));
  }

  lemma LeakedJob(b: Job)
    requires JobOk(b) && !b.userPaused && !b.paused && Enterable(b) && PauseExact(b) && b.drains == 0
    ensures var caught := Pausing(b).(busy := true);
            && !caught.userPaused && Hold(caught).inFlight >= 1
            && var after := Lift(Visible(Hold(caught)), true);
               after.pauseCount == 1 && !after.userPaused && after.drains == 0 && after.inFlight == 0
                   && after.leaks == 1
  {
  }

  /** block_job_iostatus_reset_locked: `fires` if its assertion does. */
  method IoStatusReset(m: Manager, j: JobId) returns (fires: bool)
    requires Linked(m.W()) && j in m.jobs
    modifies m`jobs
    ensures fires <==> !IoOk(old(m.jobs[j]))
    ensures fires ==> m.W() == old(m.W())
    ensures !fires ==> CoWorld(old(m.W()), m.W()) && m.W() == Put(old(m.W()), j, old(m.jobs[j]).(ioError := false))
  {
    hide Linked, CoMove, CoWorld;
    ResetMoves(m.W(), j);
    fires := m.jobs[j].ioError && !(m.jobs[j].userPaused && m.jobs[j].pauseCount > 0);
    if !fires && m.jobs[j].ioError {
      m.jobs := m.jobs[j := m.jobs[j].(ioError := false)];
    }
  }

  lemma ResetMove(b: Job)
    requires JobOk(b)
    ensures CoMove(b, b.(ioError := false)) && (b.userPaused ==> b.pauseCount > 0)
  {
  }

  lemma ResetMoves(w: World, j: JobId)
    requires Linked(w) && j in w.jobs
    ensures CoWorld(w, Put(w, j, w.jobs[j].(ioError := false)))
    ensures !w.jobs[j].ioError ==> Put(w, j, w.jobs[j].(ioError := false)) == w
    ensures w.jobs[j].userPaused ==> w.jobs[j].pauseCount > 0
  {
    hide CoMove, CoWorld;
    ResetMove(w.jobs[j]);
    CoStep(w, j, w.jobs[j].(ioError := false));
    if !w.jobs[j].ioError {
      assert w.jobs[j := w.jobs[j].(ioError := false)] == w.jobs;
    }
  }

  /** Taking a user pause back leaves the I/O status in order, whatever others do in the
      windows of the callback, if and only if the job is parked and copies no guest writes
      (or has no I/O status). */
  lemma ResumeIoExact(a: Job)
    requires JobOk(a) && IoOk(a) && a.userPaused
    ensures (forall z :: Resumes(a, z) ==> IoOk(z)) <==>
              (Parked(a) && !Copying(a)) || !a.cfg.hasUserResume
  {
    hide CoMove;
    if Silent(a) || !a.cfg.hasUserResume {
      forall z | Resumes(a, z) ensures IoOk(z) {
        ResumedInOrder(a, z);
      }
    } else {
      LateErrorBreaksReset(a);
    }
  }

  lemma ResumedInOrder(a: Job, z: Job)
    requires JobOk(a) && (Silent(a) || !a.cfg.hasUserResume) && Resumes(a, z)
    ensures !z.ioError
  {
    var c :| (if a.cfg.hasUserResume then Called(a, c) else c == a) && z == Lift(c, Silent(a));
    if a.cfg.hasUserResume {
      SilentCalled(a, c);
    }
  }

  /** An error after the reset, of a job that is not silent: the next reset fires. */
  lemma LateErrorBreaksReset(a: Job)
    requires JobOk(a) && a.userPaused && !Silent(a) && a.cfg.hasUserResume
    ensures var z := Lift(a.(ioError := true), false); Resumes(a, z) && JobOk(z) && !IoOk(z)
  {
    hide CoMove, JobOk, Silent, Lift;
    var c := a.(ioError := true);
    CoMoveSelf(a);
    LateError(a);
    LateLift(a, c);
    assert Called(a, c);
    assert Resumes(a, Lift(c, false));
  }

  lemma LateError(a: Job)
    requires JobOk(a) && a.userPaused && !Silent(a) && a.cfg.hasUserResume
    ensures CoMove(a.(ioError := false), a.(ioError := true))
  {
  }

  lemma LateLift(a: Job, c: Job)
    requires JobOk(a) && a.userPaused && a.cfg.hasUserResume && c == a.(ioError := true)
    ensures JobOk(Lift(c, false)) && !IoOk(Lift(c, false))
  {
  }

  /** A cancel takes a user pause back too, and may find one that was made while the driver
      was asked. */
  lemma CancelIoExact(a: Job, eff: bool)
    requires JobOk(a) && IoOk(a)
    ensures (forall z :: Cancels(a, z, eff) ==> IoOk(z)) <==>
              (Parked(a) && !Copying(a)) || !a.cfg.hasUserResume || (!a.userPaused && a.cfg.cancel == NoCancel)
  {
    hide CoMove, Resumes, Flagged;
    if Silent(a) || !a.cfg.hasUserResume || (!a.userPaused && a.cfg.cancel == NoCancel) {
      forall z | Cancels(a, z, eff) ensures IoOk(z) {
        CancelledInOrder(a, z, eff);
      }
    } else {
      CancelledLate(a, eff);
    }
  }

  lemma CancelledInOrder(a: Job, z: Job, eff: bool)
    requires JobOk(a) && IoOk(a) && Cancels(a, z, eff)
    requires Silent(a) || !a.cfg.hasUserResume || (!a.userPaused && a.cfg.cancel == NoCancel)
    ensures IoOk(z)
  {
    hide CoMove, Resumes;
    var b, c :| (if a.cfg.cancel == NoCancel then b == a else CoMove(a, b))
                && (if b.userPaused then Resumes(b, c) else c == b) && z == Flagged(c, eff);
    if a.cfg.cancel != NoCancel {
      CoKeepsIo(a, b);
    }
    if b.userPaused {
      ResumedInOrder(b, c);
    }
  }

  lemma CoKeepsIo(a: Job, b: Job)
    requires CoMove(a, b) && IoOk(a)
    ensures JobOk(b) && IoOk(b) && b.cfg == a.cfg && (Silent(a) ==> Silent(b))
  {
  }

  lemma CancelledLate(a: Job, eff: bool)
    requires JobOk(a) && !Silent(a) && a.cfg.hasUserResume && (a.userPaused || a.cfg.cancel != NoCancel)
    ensures exists z :: Cancels(a, z, eff) && !IoOk(z)
  {
    hide Resumes;
    var b := if a.userPaused then a else Hold(a);
    HoldMoves(a);
    hide CoMove;
    LateErrorBreaksReset(b);
    var z := Lift(b.(ioError := true), false);
    Manager.CancelsBy(a, b, z, eff);
    assert !IoOk(Flagged(z, eff));
  }

  lemma HoldMoves(a: Job)
    requires JobOk(a) && !Silent(a)
    ensures CoMove(a, a) && !Silent(Hold(a)) && (!a.userPaused ==> CoMove(a, Hold(a)))
  {
  }

  // ---------------------------------------------------------------------------
  // A job that could not be set up.

  /** job_early_fail. */
  method EarlyFail(m: Manager, j: JobId)
    requires Ok(m.W()) && j in m.jobs && m.jobs[j].status == Created
    requires m.jobs[j].txn.Some? && m.jobs[j].txn.value in m.txns ==> !m.txns[m.jobs[j].txn.value].busy
    modifies m
    ensures PollWorld(old(m.W()), m.W()) && m.ends == old(m.ends)
    ensures old(m.jobs[j]).refcnt == 1 ==> j !in m.jobs
  {
    hide Linked, Phase, Later, BusySame, Unreffed, PollWorld;
    ghost var w := m.W();
    ghost var t := CancelTxn(w, j);
    FailLinked(w, j, t);
    m.DoDismiss(j);
    FailDone(w, m.W(), j, t);
  }

  ghost function Failed(w: World, j: JobId, t: TxnId): World
    requires t in w.txns && j in w.jobs && NoDup(w.txns[t].jobs)
  {
    World(w.jobs[j := Dismissal(w.jobs[j])], DelTxn(w.txns, t, j), w.ends)
  }

  lemma FailLinked(w: World, j: JobId, t: TxnId)
    requires Linked(w) && j in w.jobs && w.jobs[j].status == Created && w.jobs[j].txn == Some(t) && t in w.txns
    ensures NoDup(w.txns[t].jobs) && w.jobs[j].refcnt >= 1
    ensures Manager.Dismissed(w, j) == Failed(w, j, t) && Linked(Failed(w, j, t))
  {
    assert JobOk(w.jobs[j]) && JobIn(w, j) && TxnIn(w, t);
    LeftLinked(w, j, Dismissal(w.jobs[j]), []);
    assert w.ends[j := []] == w.ends;
  }

  lemma FailDone(w: World, v: World, j: JobId, t: TxnId)
    requires Ok(w) && j in w.jobs && w.jobs[j].status == Created && w.jobs[j].txn == Some(t) && t in w.txns
    requires !w.txns[t].busy
    requires NoDup(w.txns[t].jobs) && w.jobs[j].refcnt >= 1 && Linked(Failed(w, j, t))
    requires Unreffed(Failed(w, j, t), v, j) && Linked(v)
    ensures PollWorld(w, v) && v.ends == w.ends && (w.jobs[j].refcnt == 1 ==> j !in v.jobs)
  {
    hide Linked, Phase, Later, BusySame, Unreffed;
    var u := Failed(w, j, t);
    FailOk(w, j, t);
    UnreffedPhases(u, v, j);
    UnreffedBusy(u, v, j, None);
    FailBusy(w, j, t);
    BusyTrans(w, u, v, None);
    DroppedLater(w, u, v, j);
    FailGone(w, v, j, t);
  }

  lemma FailGone(w: World, v: World, j: JobId, t: TxnId)
    requires j in w.jobs && t in w.txns && NoDup(w.txns[t].jobs) && Unreffed(Failed(w, j, t), v, j)
    ensures v.ends == w.ends && (w.jobs[j].refcnt == 1 ==> j !in v.jobs)
  {
    hide CoMove, DelTxn;
  }

  lemma FailOk(w: World, j: JobId, t: TxnId)
    requires Ok(w) && j in w.jobs && w.jobs[j].txn == Some(t) && t in w.txns
    requires NoDup(w.txns[t].jobs) && Linked(Failed(w, j, t))
    ensures Ok(Failed(w, j, t))
  {
    var u := Failed(w, j, t);
    forall x | x in u.txns ensures Phase(u, x) {
      assert TxnIn(w, x) && Phase(w, x);
    }
  }

  lemma FailBusy(w: World, j: JobId, t: TxnId)
    requires Linked(w) && j in w.jobs && w.jobs[j].txn == Some(t) && t in w.txns && !w.txns[t].busy
    requires NoDup(w.txns[t].jobs)
    ensures BusySame(w, Failed(w, j, t), None)
  {
    hide JobOk, JobIn, Dismissal;
    forall x | x in w.txns ensures TxnIn(w, x) {
    }
  }
}
