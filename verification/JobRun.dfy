/** Runs of the job core: any sequence of requests and coroutine steps, with any
    interference in the windows where the lock is dropped. */
module JobRun {
  import opened Options
  import opened Seqs
  import opened Jobs
  import opened JobManager
  import opened JobOps
  import opened JobCancel
  import opened JobPause

  datatype Op =
    | NewTxnOp(t: TxnId) | CreateOp(j: JobId, t: TxnId, cfg: Config) | StartOp(j: JobId) | EarlyFailOp(j: JobId)
    | UserPauseOp(j: JobId) | UserResumeOp(j: JobId, timerIdle: bool)
    | DrainBeginOp(j: JobId) | DrainEndOp(j: JobId, timerIdle: bool) | EnterOp(j: JobId)
    | ChangeOp(j: JobId, mode: CopyMode) | IoResetOp(j: JobId)
    | CancelOp(j: JobId, force: bool) | FinalizeOp(j: JobId) | DismissOp(j: JobId)
    | CoOp(j: JobId, step: CoOpStep)
    | ExitOp(j: JobId)

  /** Steps of a job's own coroutine, and errors reported from any. */
  datatype CoOpStep =
    AskPause | YieldPaused | Wake | Resumed | AttachFilter | BecomeReady | Doze | ReportError | Return(ret: int)

  /** Between operations no transaction is being finalised. */
  ghost predicate Quiet(w: World) {
    Ok(w) && forall t :: t in w.txns ==> !w.txns[t].busy
  }

  lemma PollQuiet(w: World, v: World)
    requires Quiet(w) && PollWorld(w, v)
    ensures Quiet(v)
  {
  }

  method StepCo(m: Manager, j: JobId, step: CoOpStep)
    requires Ok(m.W()) && j in m.jobs
    modifies m
    ensures PollWorld(old(m.W()), m.W())
  {
    hide Linked, Phase, Later, BusySame, PollWorld, CoWorld;
    ghost var w := m.W();
    Manager.PollSelf(w);
    var b := m.jobs[j];
    match step {
      case AskPause => if b.co == Body && b.busy { PausePoint(m, j); CoIsPoll(w, m.W()); }
      case YieldPaused => if b.co == PauseCb { PausePointYield(m, j); CoIsPoll(w, m.W()); }
      case Wake => if b.co.AtPause? && b.busy { PausePointWake(m, j); CoIsPoll(w, m.W()); }
      case Resumed => if b.co == ResumeCb { PausePointDone(m, j); CoIsPoll(w, m.W()); }
      case Doze => if b.co == Body && b.busy { Sleep(m, j); CoIsPoll(w, m.W()); }
      case AttachFilter =>
        if b.co == Body && b.busy && b.cfg.mode != NoMode { Attach(m, j); CoIsPoll(w, m.W()); }
      case BecomeReady =>
        if b.co == Body && b.busy && b.status == Running { TransitionToReady(m, j); CoIsPoll(w, m.W()); }
      case ReportError =>
        if !Silent(b) && b.cfg.hasUserResume {
          ghost var caught, mid := ErrorAction(m, j);
        }
      case Return(ret) => if b.co == Body && b.busy { RunEnds(m, j, ret); CoIsPoll(w, m.W()); }
    }
  }

  /** The two assertions that can fire: the transition table, on a soft cancel of a job
      never started whose driver answers softly, and the I/O status, on a reset of a job
      with an error on record and no user pause. */
  predicate Dies(w: World, op: Op, answer: int) {
    || (op.CancelOp? && op.j in w.jobs && Forbidden(w.jobs[op.j], op.force, answer))
    || (op.IoResetOp? && op.j in w.jobs && !IoOk(w.jobs[op.j]))
  }

  /** A job that can bring them about: its driver is of another kind than those of the
      program, or its user pause was once taken back while it was not silent. */
  predicate Odd(b: Job) {
    b.cfg.cancel == OtherCancel || b.late
  }

  /** Requests that change how a job ends. */
  method StepEnd(m: Manager, op: Op) returns (died: bool)
    requires Quiet(m.W()) && (op.CancelOp? || op.FinalizeOp? || op.DismissOp? || op.ExitOp?) && op.j in m.jobs
    modifies m
    ensures !died ==> PollWorld(old(m.W()), m.W())
    ensures died <==> Dies(old(m.W()), op, Manager.Answer(old(m.script)))
    ensures died ==> op.j in m.jobs && Odd(m.jobs[op.j])
  {
    hide Linked, Phase, Later, BusySame, PollWorld, TxnFinalised;
    Manager.PollSelf(m.W());
    died := false;
    match op {
      case CancelOp(j, force) =>
        var _, forbidden := UserCancel(m, j, force);
        died := forbidden;
      case FinalizeOp(j) =>
        var refused, rc;
        ghost var bad;
        refused, rc, bad := Finalize(m, j);
      case DismissOp(j) =>
        var _ := Dismiss(m, j);
      case ExitOp(j) =>
        if m.jobs[j].co == Ended && !Completed(m.jobs[j].status) {
          JobExit(m, j);
        }
    }
  }

  /** With a driver of another kind the first can happen: a new job whose driver answers a
      soft cancel with 0. */
  method SoftCancelOfNewJob(cfg: Config) returns (m: Manager, died: bool)
    requires cfg.cancel == OtherCancel
    ensures died && 0 in m.jobs && !Fated(m.jobs[0]) && !Stt(m.jobs[0].status, Waiting)
  {
    hide Linked, Phase, Later, BusySame, PollWorld;
    m := new Manager([]);
    ghost var w := m.W();
    NewTxn(m, 0);
    PollGives(w, m.W());
    w := m.W();
    Create(m, 0, 0, cfg);
    PollGives(w, m.W());
    var refused;
    refused, died := UserCancel(m, 0, false);
  }

  /** A write-blocking mirror job that was started and then paused by its user. */
  function HeldMirror(cfg: Config): Job {
    Hold(Known(Started(NewJob(0, cfg))))
  }

  /** It has reached its pause point. */
  function PausedMirror(cfg: Config): Job {
    AtYield(HeldMirror(cfg).(co := PauseCb))
  }

  /** The second can happen to a mirror job although it is parked: a guest write fails after
      the status is reset and before the pause is taken back, as `z` shows, and the next
      reset fires. */
  method ResumeOfPausedMirror(cfg: Config) returns (m: Manager, ghost z: Job)
    requires cfg.hasUserResume && cfg.mode == WriteBlocking
    ensures Quiet(m.W()) && 0 in m.jobs && m.jobs[0] == PausedMirror(cfg)
    ensures Parked(m.jobs[0]) && Resumes(m.jobs[0], z) && JobOk(z) && !IoOk(z)
  {
    hide Linked, Phase, Later, BusySame, PollWorld, CoWorld, JobOk, Resumes;
    m := HoldMirror(cfg);
    ghost var w := m.W();
    PausePoint(m, 0);
    CoIsPoll(w, m.W());
    PollGives(w, m.W());
    w := m.W();
    PausePointYield(m, 0);
    CoIsPoll(w, m.W());
    PollGives(w, m.W());
    LinkedJob(m.W(), 0);
    LateErrorBreaksReset(m.jobs[0]);
    z := Lift(m.jobs[0].(ioError := true), false);
  }

  method HoldMirror(cfg: Config) returns (m: Manager)
    requires cfg.mode == WriteBlocking
    ensures fresh(m) && Quiet(m.W()) && 0 in m.jobs && m.jobs[0] == HeldMirror(cfg)
  {
    hide Linked, Phase, Later, BusySame, PollWorld, CoWorld, JobOk;
    m := new Manager([]);
    ghost var w := m.W();
    NewTxn(m, 0);
    PollGives(w, m.W());
    w := m.W();
    Create(m, 0, 0, cfg);
    PollGives(w, m.W());
    w := m.W();
    Start(m, 0);
    PollGives(w, m.W());
    w := m.W();
    Attach(m, 0);
    CoIsPoll(w, m.W());
    PollGives(w, m.W());
    w := m.W();
    var refused := UserPause(m, 0);
    PollGives(w, m.W());
  }

  /** One operation. A call that breaks its caller's side of the contract does nothing
      here, such as starting a job twice; nor does one that nobody is there to make, such as
      an error report on behalf of a silent job. */
  method Step(m: Manager, op: Op) returns (died: bool)
    requires Quiet(m.W())
    modifies m
    ensures !died ==> PollWorld(old(m.W()), m.W())
    ensures died <==> Dies(old(m.W()), op, Manager.Answer(old(m.script)))
    ensures died ==> exists j :: j in m.jobs && Odd(m.jobs[j])
  {
    hide Linked, Phase, Later, BusySame, PollWorld;
    ghost var w := m.W();
    Manager.PollSelf(w);
    died := false;
    match op {
      case NewTxnOp(t) =>
        if t !in m.txns { NewTxn(m, t); }
      case CreateOp(j, t, cfg) =>
        if j !in m.ends && t in m.txns && !m.txns[t].aborting
           && (forall i :: i in m.txns[t].jobs && i in m.jobs ==> m.jobs[i].status != Pending) {
          Create(m, j, t, cfg);
        }
      case StartOp(j) =>
        if j in m.jobs && m.jobs[j].status == Created { Start(m, j); }
      case EarlyFailOp(j) =>
        if j in m.jobs && m.jobs[j].status == Created { EarlyFail(m, j); }
      case UserPauseOp(j) =>
        if j in m.jobs { var _ := UserPause(m, j); }
      case UserResumeOp(j, timerIdle) =>
        if j in m.jobs {
          ghost var mid;
          var refused;
          refused, mid := UserResume(m, j, timerIdle);
        }
      case DrainBeginOp(j) =>
        if j in m.jobs { DrainBegin(m, j); }
      case DrainEndOp(j, timerIdle) =>
        if j in m.jobs && m.jobs[j].drains > 0 { DrainEnd(m, j, timerIdle); }
      case EnterOp(j) =>
        if j in m.jobs { EnterCond(m, j, true); }
      case ChangeOp(j, mode) =>
        if j in m.jobs && mode != NoMode {
          ghost var mid;
          var err;
          err, mid := Change(m, j, mode);
        }
      case IoResetOp(j) =>
        if j in m.jobs { died := StepReset(m, j); }
      case CoOp(j, step) =>
        if j in m.jobs { StepCo(m, j, step); }
      case _ =>
        if op.j in m.jobs { died := StepEnd(m, op); }
    }
  }

  method StepReset(m: Manager, j: JobId) returns (died: bool)
    requires Ok(m.W()) && j in m.jobs
    modifies m
    ensures !died ==> PollWorld(old(m.W()), m.W())
    ensures died <==> !IoOk(old(m.jobs[j]))
    ensures died ==> j in m.jobs && Odd(m.jobs[j])
  {
    hide Linked, Phase, Later, BusySame, PollWorld, CoWorld, JobOk;
    ghost var w := m.W();
    LinkedJob(w, j);
    LateOnly(w.jobs[j]);
    died := IoStatusReset(m, j);
    if !died {
      CoIsPoll(w, m.W());
    }
  }

  lemma LateOnly(b: Job)
    requires JobOk(b)
    ensures IoOk(b) || b.late
  {
  }

  /** What an operation finds: the world, and the answer of the next callback. */
  datatype Moment = Moment(world: World, answer: int)

  /** The operations up to the last of `trace` were done one after the other, each in the
      world that the one before left, and those before the last did not die. */
  ghost predicate Traced(w: World, ops: seq<Op>, trace: seq<Moment>) {
    && |trace| <= |ops| && (trace != [] ==> trace[0].world == w)
    && (forall k :: 0 <= k < |trace| ==> Quiet(trace[k].world) && Later(w, trace[k].world))
    && (forall k :: 0 < k < |trace| ==> PollWorld(trace[k - 1].world, trace[k].world))
    && (forall k :: 0 <= k < |trace| - 1 ==> !Dies(trace[k].world, ops[k], trace[k].answer))
  }

  /** Every run keeps the invariant: pause counts that account for every pause, jobs and
      transactions linked both ways, results in keeping with status, and no job finalised
      twice. No completed job becomes uncompleted, no outcome is revised, no pause leaked
      is taken back. An assertion fires at the first operation that calls for it in the
      state it finds, and at no other; the job it is about is odd then. */
  method Run(m: Manager, ops: seq<Op>) returns (died: bool, ghost trace: seq<Moment>)
    requires Quiet(m.W())
    modifies m
    ensures !died ==> Quiet(m.W()) && Later(old(m.W()), m.W())
    ensures (forall j :: j in m.jobs ==> !Odd(m.jobs[j])) ==> !died
    ensures Traced(old(m.W()), ops, trace) && (!died ==> |trace| == |ops|)
    ensures died <==> exists k :: 0 <= k < |trace| && Dies(trace[k].world, ops[k], trace[k].answer)
    ensures forall k :: 0 <= k < |trace| && Dies(trace[k].world, ops[k], trace[k].answer) ==>
              k == |trace| - 1 && ops[k].j in trace[k].world.jobs && Odd(trace[k].world.jobs[ops[k].j])
  {
    hide Linked, Phase, Later, BusySame, PollWorld, Quiet, Dies;
    ghost var w := m.W();
    died, trace := false, [];
    QuietSelf(w);
    for i := 0 to |ops|
      invariant !died && Quiet(m.W()) && Later(w, m.W()) && Linked(w)
      invariant |trace| == i && Traced(w, ops, trace) && (i == 0 ==> m.W() == w)
      invariant i > 0 ==> PollWorld(trace[i - 1].world, m.W())
      invariant forall k :: 0 <= k < i ==> !Dies(trace[k].world, ops[k], trace[k].answer)
    {
      ghost var v := Moment(m.W(), Manager.Answer(m.script));
      trace := trace + [v];
      died := Step(m, ops[i]);
      if died {
        DiesOdd(v, ops[i]);
        return;
      }
      Onward(w, v.world, m.W());
    }
  }

  /** Only an odd job brings an assertion about. */
  lemma DiesOdd(v: Moment, op: Op)
    requires Quiet(v.world) && Dies(v.world, op, v.answer)
    ensures (op.CancelOp? || op.IoResetOp?) && op.j in v.world.jobs && Odd(v.world.jobs[op.j])
  {
    assert JobOk(v.world.jobs[op.j]);
  }

  lemma QuietSelf(w: World)
    requires Quiet(w)
    ensures Later(w, w) && Linked(w)
  {
  }

  lemma Onward(w: World, v: World, u: World)
    requires Linked(w) && Quiet(v) && Later(w, v) && PollWorld(v, u)
    ensures Quiet(u) && Later(w, u)
  {
    LaterTrans(w, v, u);
    PollQuiet(v, u);
  }

  /** What the invariant says of one job, at every lock release. */
  lemma QuietGives(w: World, j: JobId)
    requires Quiet(w) && j in w.jobs
    ensures w.jobs[j].pauseCount >= 0 && (PauseExact(w.jobs[j]) <==> w.jobs[j].inFlight == 0 && w.jobs[j].leaks == 0)
    ensures IoOk(w.jobs[j]) || w.jobs[j].late
    ensures w.jobs[j].userPaused || w.jobs[j].drains > 0 ==> w.jobs[j].pauseCount > 0
    ensures w.jobs[j].status in {Waiting, Pending} ==> w.jobs[j].ret == 0
    ensures w.jobs[j].status != Aborting
    ensures w.jobs[j].txn.Some? ==> j in w.ends && w.ends[j] == []
  {
    assert JobOk(w.jobs[j]) && JobIn(w, j);
    if w.jobs[j].txn.Some? {
      assert Phase(w, w.jobs[j].txn.value);
    }
  }
}
