// How a run's job and its stage go together, and exactly which writes of a row as it was
// read, but is no longer, take them apart.
module StageCoupling {
  import opened Prelude
  import opened Jobs
  import opened StageControl
  import opened StageRuns

  // ---------- A job and its stage ----------

  predicate StoppedAfter(v: seq<Version>, p: nat) {
    |v| == p + 2 && v[p + 1].status == Stopped
  }

  // The stage still waits, or was stopped before it began.
  predicate Unbegun(v: seq<Version>, p: nat) {
    |v| == p + 1 || StoppedAfter(v, p)
  }

  // The stage ended as a job of this state does, or was stopped.
  predicate EndedAs(v: seq<Version>, p: nat, state: JobState) {
    Outcome(v, p).Some? && (Outcome(v, p).value.status == Stopped || JobEnd(Outcome(v, p).value.status) == state)
  }

  // A job that waits has a stage that has not begun, a running one a running stage, and an
  // ended one a stage that ended with it or is still to be settled; a job that was asked
  // to cancel has not succeeded.
  predicate Agree(v: seq<Version>, run: Run) {
    match run.job.state
    case Queued => Unbegun(v, run.pending)
    case Leased => Unbegun(v, run.pending)
    case Running => |v| == run.pending + 2
    case Succeeded => !run.job.cancelRequested
    case Cancelled => (Owns(v, run.pending) || EndedAs(v, run.pending, Cancelled)) && (run.job.attempts == 0 ==> Unbegun(v, run.pending))
    case state => Owns(v, run.pending) || EndedAs(v, run.pending, state)
  }

  predicate Coupled(db: Db, r: nat) {
    r < |db.runs| && db.runs[r].attempt < |db.attempts| && Agree(db.attempts[db.runs[r].attempt], db.runs[r])
  }

  // ---------- What takes them apart ----------

  // The stage has ended, and not as a job of this state.
  predicate EndedOtherwise(v: seq<Version>, p: nat, state: JobState) {
    Outcome(v, p).Some? && !EndedAs(v, p, state)
  }

  // A request to cancel a job that was read under way finds that it has succeeded.
  predicate FlagsSuccess(job: StageControl.Job, h: StageControl.Job) {
    UnderWay(h.state) && !h.cancelRequested && job.state == Succeeded
  }

  // A stage is settled for a job that was read dead: the job runs since, or has ended
  // another way.
  predicate SettlesOther(v: seq<Version>, run: Run, h: StageControl.Job) {
    Dead(h.state) && Owns(v, run.pending) && (run.job.state == Running || (h.state != Cancelled && h.state != run.job.state))
  }

  // What a session that has read the row as h comes to write.
  predicate TakesApart(v: seq<Version>, run: Run, h: StageControl.Job, step: Step) {
    match step
    case Expire(_, now) => Expired(h, now) && EndedOtherwise(v, run.pending, Reaped(h.cancelRequested, h.attempts, MAX_JOB_ATTEMPTS))
    case Cancel(_) => (h.state == Queued && EndedOtherwise(v, run.pending, Cancelled)) || FlagsSuccess(run.job, h)
    case Retry(_) => Dead(h.state) && h.attempts < MAX_JOB_ATTEMPTS && !Unbegun(v, run.pending)
    case CancelRun(_) => FlagsSuccess(run.job, h) || SettlesOther(v, run, h)
    case Settle(_) => SettlesOther(v, run, h)
    case _ => false
  }

  // The row that the session of this step is about to write.
  predicate OnRow(s: State, step: Step, r: nat) {
    OfSession(step) && step.session in s.held && s.held[step.session].run == r < |s.db.runs|
    && s.db.runs[r].attempt < |s.db.attempts|
  }

  predicate Spoils(s: State, step: Step, r: nat) {
    OnRow(s, step, r) && TakesApart(s.db.attempts[s.db.runs[r].attempt], s.db.runs[r], s.held[step.session].job, step)
  }

  predicate NeverSpoiled(s: State, steps: seq<Step>, r: nat)
    decreases |steps|
  {
    steps == [] || (!Spoils(s, steps[0], r) && NeverSpoiled(Next(s, steps[0]), steps[1..], r))
  }

  // ---------- The end of an attempt ----------

  lemma AgreeGrows(v: seq<Version>, e: Version, run: Run)
    requires HistoryOk(v) && Sane(v, run) && Agree(v, run) && !Owns(v, run.pending) && EdgeOk(Last(v), e)
    ensures Agree(v + [e], run)
  {
    var p := run.pending;
    assert p + 1 < |v|;
    assert EdgeOk(v[(p + 1) - 1], v[p + 1]);
    assert Outcome(v, p).Some? ==> Outcome(v + [e], p) == Outcome(v, p);
  }

  lemma OtherAppends(db: Db, q: nat, job: StageControl.Job, e: Version, r: nat)
    requires DbOk(db) && Coupled(db, r) && q < |db.runs| && q != r && db.runs[q].attempt < |db.attempts|
    requires Owns(db.attempts[db.runs[q].attempt], db.runs[q].pending) && EdgeOk(Last(db.attempts[db.runs[q].attempt]), e)
    ensures Coupled(Appended(WithJob(db, q, job), db.runs[q].attempt, e), r)
  {
    assert RunOk(db, r) && HistoryOk(db.attempts[db.runs[r].attempt]);
    if db.runs[r].attempt == db.runs[q].attempt {
      if Owns(db.attempts[db.runs[r].attempt], db.runs[r].pending) {
        OneOwner(db, q, r);
      }
      AgreeGrows(db.attempts[db.runs[r].attempt], e, db.runs[r]);
    }
  }

  // The stage of run q ends, for whatever its job has become.
  lemma FinishCouples(db: Db, q: nat, job: StageControl.Job, target: Status, reason: string, result: Option<nat>, key: VersionKey, r: nat)
    requires DbOk(db) && Coupled(db, r) && q < |db.runs| && db.runs[q].attempt < |db.attempts|
    requires Owns(db.attempts[db.runs[q].attempt], db.runs[q].pending)
    requires Lost(target) || (target == Done && Last(db.attempts[db.runs[q].attempt]).status == Started)
    ensures var e := FinishVersion(db, q, target, reason, result, key);
      var v := db.attempts[db.runs[q].attempt];
      Coupled(Appended(WithJob(db, q, job), db.runs[q].attempt, e), r) <==> (r != q || Agree(v + [e], db.runs[q].(job := job)))
  {
    var v := db.attempts[db.runs[q].attempt];
    var e := FinishVersion(db, q, target, reason, result, key);
    assert RunOk(db, q) && HistoryOk(v);
    if r != q {
      OtherAppends(db, q, job, e, r);
    }
  }

  // ---------- The conditional operations keep them together ----------

  lemma JobAlone(db: Db, q: nat, job: StageControl.Job, r: nat)
    requires Coupled(db, r) && q < |db.runs|
    ensures Coupled(WithJob(db, q, job), r) <==> (r != q || Agree(db.attempts[db.runs[r].attempt], db.runs[r].(job := job)))
  {
  }

  lemma GrantCouples(db: Db, w: nat, expires: int, q: nat, r: nat)
    requires Coupled(db, r)
    ensures Coupled(Grant(db, w, expires, q), r)
  {
  }

  lemma BeginCouples(db: Db, q: nat, w: nat, spec: nat, inputsOk: bool, now: int, r: nat)
    requires DbOk(db) && Coupled(db, r)
    ensures Coupled(Kept(db, Begin(db, q, w, spec, inputsOk, now)), r)
  {
    var result := Begin(db, q, w, spec, inputsOk, now);
    if result.Ok? && result.value != db {
      var run := db.runs[q];
      assert RunOk(db, q) && HistoryOk(db.attempts[run.attempt]);
      var e := Version(run.stage, Started, "stage_started", Some(spec), None, RunKey(q, Started));
      if r != q {
        OtherAppends(db, q, run.job.(state := Running), e, r);
      }
    }
  }

  lemma CompleteCouples(db: Db, q: nat, w: nat, target: Status, reason: string, result: Option<nat>, bundleOk: bool, now: int, r: nat)
    requires DbOk(db) && Coupled(db, r)
    ensures Coupled(KeptPair(db, Complete(db, q, w, target, reason, result, bundleOk, now)), r)
  {
    var answer := Complete(db, q, w, target, reason, result, bundleOk, now);
    if answer.Ok? && answer.value.0 != db {
      var run := db.runs[q];
      var v := db.attempts[run.attempt];
      assert RunOk(db, q);
      var job := Ended(run.job, JobEnd(target));
      FinishKeeps(db, q, job, target, reason, result, RunKey(q, target));
      FinishCouples(db, q, job, target, reason, result, RunKey(q, target), r);
      assert Agree(v + [FinishVersion(db, q, target, reason, result, RunKey(q, target))], run.(job := job));
    }
  }

  lemma CallerCouples(db: Db, a: nat, e: Version, r: nat)
    requires DbOk(db) && Coupled(db, r) && a < |db.attempts|
    requires EdgeOk(Last(db.attempts[a]), e) && e.status == Pending
    ensures Coupled(Appended(db, a, e), r)
  {
    assert RunOk(db, r) && HistoryOk(db.attempts[a]);
    if db.runs[r].attempt == a {
      AgreeGrows(db.attempts[a], e, db.runs[r]);
    }
  }

  lemma CallsCouple(db: Db, step: Step, r: nat)
    requires DbOk(db) && Coupled(db, r) && (step.DoRetry? || step.DoAdvance? || step.DoRestore?)
    ensures Coupled(NextDb(db, step), r)
  {
    var next := NextDb(db, step);
    if next != db {
      var a := if step.DoRetry? then db.runs[step.run].attempt else step.attempt;
      CallerCouples(db, a, Last(next.attempts[a]), r);
    }
  }

  lemma PlainCouples(db: Db, step: Step, r: nat)
    requires DbOk(db) && Coupled(db, r)
    requires step.StartAttempt? || step.DoSchedule? || step.DoHeartbeat? || step.JobFail?
    ensures Coupled(NextDb(db, step), r)
  {
    assert RunOk(db, r);
  }

  lemma NextDbCouples(db: Db, step: Step, r: nat)
    requires DbOk(db) && Coupled(db, r)
    ensures Coupled(NextDb(db, step), r)
  {
    match step
    case DoLease(w, expires, chosen) => GrantCouples(db, w, expires, chosen, r);
    case DoBegin(q, w, spec, inputsOk, now) => BeginCouples(db, q, w, spec, inputsOk, now, r);
    case DoComplete(q, w, target, reason, result, bundleOk, now) => CompleteCouples(db, q, w, target, reason, result, bundleOk, now, r);
    case DoRetry(_, _) => CallsCouple(db, step, r);
    case DoAdvance(_, _, _) => CallsCouple(db, step, r);
    case DoRestore(_, _) => CallsCouple(db, step, r);
    case StartAttempt(_) => PlainCouples(db, step, r);
    case DoSchedule(_, _, _, _, _) => PlainCouples(db, step, r);
    case DoHeartbeat(_, _, _, _) => PlainCouples(db, step, r);
    case JobFail(_, _) => PlainCouples(db, step, r);
    case _ =>
  }

  // ---------- What the sessions write ----------

  // The stage is where its job says, or has ended.
  lemma Somewhere(v: seq<Version>, run: Run)
    requires Sane(v, run) && Agree(v, run)
    ensures Owns(v, run.pending) || Outcome(v, run.pending).Some?
  {
  }

  lemma ExpireAgrees(v: seq<Version>, run: Run, h: StageControl.Job, session: nat, now: int)
    requires Sane(v, run) && Agree(v, run) && h.attempts <= run.job.attempts && (LeasedOnce(h.state) ==> h.attempts >= 1)
    ensures Agree(v, run.(job := Expiring(run.job, h, now))) <==> !TakesApart(v, run, h, Expire(session, now))
  {
    Somewhere(v, run);
  }

  lemma CancelAgrees(v: seq<Version>, run: Run, h: StageControl.Job, session: nat)
    requires Sane(v, run) && Agree(v, run)
    ensures Agree(v, run.(job := Cancelling(run.job, h))) <==> !TakesApart(v, run, h, Cancel(session))
  {
    Somewhere(v, run);
  }

  lemma RetryAgrees(v: seq<Version>, run: Run, h: StageControl.Job, session: nat)
    requires Sane(v, run) && Agree(v, run)
    ensures Agree(v, run.(job := Retrying(run.job, h))) <==> !TakesApart(v, run, h, Retry(session))
  {
  }

  lemma SettleAgrees(v: seq<Version>, run: Run, h: StageControl.Job, e: Version)
    requires Sane(v, run) && Agree(v, run) && Dead(h.state) && Owns(v, run.pending) && e.status == LossStatus(h.state).value.0
    ensures Agree(v + [e], run) <==> !SettlesOther(v, run, h)
  {
    assert Outcome(v + [e], run.pending) == Some(e);
  }

  lemma StopAgrees(v: seq<Version>, run: Run, h: StageControl.Job, e: Version)
    requires Sane(v, run) && run.pending == |v| - 1 && h.state == Queued && e.status == Stopped
    ensures Agree(v + [e], run.(job := Cancelling(run.job, h)))
  {
    assert Outcome(v + [e], run.pending) == Some(e);
  }

  lemma SettleCouples(db: Db, h: Held, r: nat)
    requires DbOk(db) && HeldOk(db, h) && Coupled(db, r)
    ensures var run := db.runs[h.run];
      run.attempt < |db.attempts|
      && (Coupled(Kept(db, SettleAs(db, h.run, h.job.state)), r) <==> !(h.run == r && SettlesOther(db.attempts[run.attempt], run, h.job)))
  {
    var run := db.runs[h.run];
    assert RunOk(db, h.run);
    var v := db.attempts[run.attempt];
    assert HistoryOk(v);
    SettlesAs(db, h.run, h.job.state);
    if Dead(h.job.state) && Owns(v, run.pending) {
      var (target, reason) := LossStatus(h.job.state).value;
      FinishCouples(db, h.run, run.job, target, reason, None, ReconcileKey(h.run, target), r);
      assert WithJob(db, h.run, run.job) == db;
      if h.run == r {
        SettleAgrees(v, run, h.job, FinishVersion(db, h.run, target, reason, None, ReconcileKey(h.run, target)));
      }
    }
  }

  lemma FlagCouples(db: Db, h: Held, session: nat, r: nat)
    requires DbOk(db) && HeldOk(db, h) && Coupled(db, r) && h.job.state != Queued && db.runs[h.run].attempt < |db.attempts|
    ensures Coupled(WithJob(db, h.run, Cancelling(db.runs[h.run].job, h.job)), r) <==> !(h.run == r && FlagsSuccess(db.runs[h.run].job, h.job))
  {
    var run := db.runs[h.run];
    assert RunOk(db, h.run);
    JobAlone(db, h.run, Cancelling(run.job, h.job), r);
    if h.run == r {
      CancelAgrees(db.attempts[run.attempt], run, h.job, session);
    }
  }

  lemma StopCouples(db: Db, h: Held, r: nat)
    requires DbOk(db) && HeldOk(db, h) && Coupled(db, r) && h.job.state == Queued && db.runs[h.run].attempt < |db.attempts|
    requires db.runs[h.run].pending == |db.attempts[db.runs[h.run].attempt]| - 1
    ensures Coupled(Kept(db, RequestCancel(db, h.run, h.job)), r)
  {
    var run := db.runs[h.run];
    AllVerified(db, h.run);
    assert RunOk(db, h.run);
    var job := Cancelling(run.job, h.job);
    FinishKeeps(db, h.run, job, Stopped, "cancellation_requested", None, RunKey(h.run, Stopped));
    FinishCouples(db, h.run, job, Stopped, "cancellation_requested", None, RunKey(h.run, Stopped), r);
    StopAgrees(db.attempts[run.attempt], run, h.job, FinishVersion(db, h.run, Stopped, "cancellation_requested", None, RunKey(h.run, Stopped)));
  }

  lemma CancelRunCouples(db: Db, h: Held, session: nat, r: nat)
    requires DbOk(db) && HeldOk(db, h) && Coupled(db, r)
    ensures var run := db.runs[h.run];
      run.attempt < |db.attempts|
      && (Coupled(Kept(db, RequestCancel(db, h.run, h.job)), r) <==>
            !(h.run == r && TakesApart(db.attempts[run.attempt], run, h.job, CancelRun(session))))
  {
    var run := db.runs[h.run];
    AllVerified(db, h.run);
    assert RunOk(db, h.run);
    var v := db.attempts[run.attempt];
    if Terminal(h.job.state) {
      SettleCouples(db, h, r);
    } else if h.job.state != Queued {
      FlagCouples(db, h, session, r);
    } else if run.pending == |v| - 1 {
      StopCouples(db, h, r);
    }
  }

  lemma RowCouples(db: Db, h: Held, step: Step, r: nat)
    requires DbOk(db) && HeldOk(db, h) && Coupled(db, r) && (step.Expire? || step.Cancel? || step.Retry?)
    ensures db.runs[h.run].attempt < |db.attempts|
      && (Coupled(Writes(db, h, step), r) <==> !(h.run == r && TakesApart(db.attempts[db.runs[h.run].attempt], db.runs[h.run], h.job, step)))
  {
    var run := db.runs[h.run];
    assert RunOk(db, h.run);
    JobAlone(db, h.run, Writes(db, h, step).runs[h.run].job, r);
    if h.run == r {
      var v := db.attempts[run.attempt];
      match step
      case Expire(n, now) => ExpireAgrees(v, run, h.job, n, now);
      case Cancel(n) => CancelAgrees(v, run, h.job, n);
      case Retry(n) => RetryAgrees(v, run, h.job, n);
    }
  }

  // A job and its stage that go together come apart exactly by one of these writes.
  lemma StepCouples(s: State, step: Step, r: nat)
    requires Inv(s) && Coupled(s.db, r)
    ensures Coupled(Next(s, step).db, r) <==> !Spoils(s, step, r)
  {
    if OfSession(step) {
      if step.session in s.held {
        var h := s.held[step.session];
        match step
        case CancelRun(n) => CancelRunCouples(s.db, h, n, r);
        case Settle(_) => SettleCouples(s.db, h, r);
        case Expire(_, _) => RowCouples(s.db, h, step, r);
        case Cancel(_) => RowCouples(s.db, h, step, r);
        case Retry(_) => RowCouples(s.db, h, step, r);
      }
    } else if !step.ReadRow? {
      NextDbCouples(s.db, step, r);
    }
  }

  lemma WritesAddNoRun(db: Db, h: Held, step: Step)
    ensures |Writes(db, h, step).runs| == |db.runs|
  {
  }

  // A run is scheduled with its stage waiting.
  lemma NewRunCoupled(s: State, step: Step, r: nat)
    requires Inv(s) && |s.db.runs| <= r < |Next(s, step).db.runs|
    ensures Coupled(Next(s, step).db, r)
  {
    if OfSession(step) && step.session in s.held {
      WritesAddNoRun(s.db, s.held[step.session], step);
      assert false;
    } else if !OfSession(step) && !step.DoSchedule? {
      OthersAddNoRun(s.db, step);
      assert false;
    }
  }

  lemma OthersAddNoRun(db: Db, step: Step)
    requires !step.DoSchedule?
    ensures |NextDb(db, step).runs| == |db.runs|
  {
  }

  lemma {:induction false} StaysCoupled(s: State, steps: seq<Step>, r: nat)
    requires Inv(s) && (r < |s.db.runs| ==> Coupled(s.db, r)) && NeverSpoiled(s, steps, r)
    ensures r < |After(s, steps).db.runs| ==> Coupled(After(s, steps).db, r)
    decreases |steps|
  {
    if steps != [] {
      var t := Next(s, steps[0]);
      StepKeeps(s, steps[0]);
      if r < |s.db.runs| {
        StepCouples(s, steps[0], r);
      } else if r < |t.db.runs| {
        NewRunCoupled(s, steps[0], r);
      }
      StaysCoupled(t, steps[1..], r);
    }
  }

  // ---------- Rows that are as they were read ----------

  predicate AsRead(s: State, step: Step, r: nat) {
    OnRow(s, step, r) ==> s.held[step.session].job == s.db.runs[r].job
  }

  // A write that nothing has overtaken spoils nothing.
  lemma AsReadKeeps(s: State, step: Step, r: nat)
    requires Inv(s) && Coupled(s.db, r) && AsRead(s, step, r)
    ensures !Spoils(s, step, r)
  {
    assert RunOk(s.db, r);
  }

  // ---------- Ended for good ----------

  // A session writes another state over a job that has ended, or queues one again that
  // has been leased.
  predicate Overturns(job: StageControl.Job, h: StageControl.Job, step: Step) {
    match step
    case Expire(_, now) => Expired(h, now) && Terminal(job.state) && job.state != Reaped(h.cancelRequested, h.attempts, MAX_JOB_ATTEMPTS)
    case Cancel(_) => h.state == Queued && Terminal(job.state) && job.state != Cancelled
    case CancelRun(_) => h.state == Queued && Terminal(job.state) && job.state != Cancelled
    case Retry(_) => Dead(h.state) && h.attempts < MAX_JOB_ATTEMPTS && job.attempts >= 1
    case _ => false
  }

  predicate Reverses(s: State, step: Step, r: nat) {
    OnRow(s, step, r) && Overturns(s.db.runs[r].job, s.held[step.session].job, step)
  }

  predicate NeverReversed(s: State, steps: seq<Step>, r: nat)
    decreases |steps|
  {
    steps == [] || (!Reverses(s, steps[0], r) && NeverReversed(Next(s, steps[0]), steps[1..], r))
  }

  // Dead, or asked to cancel before it has succeeded.
  predicate Doomed(job: StageControl.Job) {
    Dead(job.state) || (job.state != Succeeded && job.cancelRequested)
  }

  // What may become of a job that was leased once: what has ended stays, what runs stays
  // with its worker or ends, and a request to cancel is not taken back.
  predicate JobGoes(a: StageControl.Job, b: StageControl.Job) {
    a.attempts >= 1 ==>
      && b.attempts >= 1
      && (Terminal(a.state) ==> b.state == a.state)
      && (a.state == Running ==> (b.state == Running && b.owner == a.owner) || Terminal(b.state))
      && (Doomed(a) ==> Doomed(b))
  }

  lemma LeasingStands(db: Db, step: Step, r: nat)
    requires r < |db.runs| && (step.DoLease? || step.DoHeartbeat? || step.DoBegin? || step.JobFail?)
    ensures r < |NextDb(db, step).runs| && JobGoes(db.runs[r].job, NextDb(db, step).runs[r].job)
  {
  }

  lemma CompletingStands(db: Db, step: Step, r: nat)
    requires r < |db.runs| && step.DoComplete?
    ensures r < |NextDb(db, step).runs| && JobGoes(db.runs[r].job, NextDb(db, step).runs[r].job)
  {
  }

  lemma NextDbStands(db: Db, step: Step, r: nat)
    requires r < |db.runs|
    ensures r < |NextDb(db, step).runs| && JobGoes(db.runs[r].job, NextDb(db, step).runs[r].job)
  {
    if step.DoLease? || step.DoHeartbeat? || step.DoBegin? || step.JobFail? {
      LeasingStands(db, step, r);
    } else if step.DoComplete? {
      CompletingStands(db, step, r);
    }
  }

  lemma WritesStand(db: Db, h: Held, step: Step, r: nat)
    requires r < |db.runs| && HeldOk(db, h) && !(h.run == r && Overturns(db.runs[r].job, h.job, step))
    ensures r < |Writes(db, h, step).runs| && JobGoes(db.runs[r].job, Writes(db, h, step).runs[r].job)
  {
  }

  lemma StepStands(s: State, step: Step, r: nat)
    requires Inv(s) && r < |s.db.runs| && !Reverses(s, step, r)
    ensures r < |Next(s, step).db.runs| && JobGoes(s.db.runs[r].job, Next(s, step).db.runs[r].job)
  {
    if OfSession(step) && step.session in s.held {
      assert RunOk(s.db, r);
      WritesStand(s.db, s.held[step.session], step, r);
    } else if !OfSession(step) {
      NextDbStands(s.db, step, r);
    }
  }

  lemma {:induction false} Stands(s: State, steps: seq<Step>, r: nat)
    requires Inv(s) && r < |s.db.runs| && NeverReversed(s, steps, r)
    ensures r < |After(s, steps).db.runs| && JobGoes(s.db.runs[r].job, After(s, steps).db.runs[r].job)
    decreases |steps|
  {
    if steps != [] {
      StepKeeps(s, steps[0]);
      StepStands(s, steps[0], r);
      Stands(Next(s, steps[0]), steps[1..], r);
    }
  }

  lemma AsReadStands(s: State, step: Step, r: nat)
    requires Inv(s) && AsRead(s, step, r)
    ensures !Reverses(s, step, r)
  {
    if r < |s.db.runs| {
      assert RunOk(s.db, r);
    }
  }
}
