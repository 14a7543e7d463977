// Runs of the stage-run control protocol that end where its documentation would not lead
// one to expect: a stuck retry, a completion acknowledged for another run, a reaper that
// writes over a success, and a cancellation accepted after one.
module StageExamples {
  import opened Prelude
  import opened Jobs
  import opened StageControl
  import opened StageRuns
  import opened StageCoupling
  import opened StageGuarantees
  import opened StageFutures

  // ---------- One attempt, two explore runs ----------

  function Explored(status: Status, reason: string, key: VersionKey): Version {
    Version(Explore, status, reason, None, None, key)
  }

  const FIRST := Explored(Pending, "execution_started", CallerKey("a"))
  const FIRST_LATE := Explored(Late, "worker_lease_expired", ReconcileKey(0, Late))
  const SECOND := Explored(Pending, "retry_scheduled", CallerKey("b"))
  const SECOND_BROKEN := Explored(Broken, "worker_failed", ReconcileKey(1, Broken))

  function RunOf(pending: nat, number: nat, key: string, state: JobState): Run {
    Run(0, pending, Explore, number, 2, 7, key, Job(state, if state == Leased then Some(1) else None, 0, false, if state == Queued then 0 else 1))
  }

  lemma {:induction false} OneMore(s: State, steps: seq<Step>, step: Step)
    ensures After(s, steps + [step]) == Next(After(s, steps), step)
    decreases |steps|
  {
    if steps == [] {
      assert steps + [step] == [step] && [step][1..] == [];
    } else {
      assert (steps + [step])[1..] == steps[1..] + [step];
      OneMore(Next(s, steps[0]), steps[1..], step);
    }
  }

  // Nothing read and not yet written.
  function Plain(db: Db): State {
    State(db, map[])
  }

  // One session reads a row and writes it at once.
  lemma ReadAndWrite(db: Db, r: nat, step: Step)
    requires r < |db.runs| && OfSession(step) && step.session == 9
    ensures Next(Next(Plain(db), ReadRow(9, r)), step) == Plain(Writes(db, Held(r, db.runs[r].job), step))
  {
    assert map[9 := Held(r, db.runs[r].job)] - {9} == map[];
  }

  // The states of the run, in order.
  const D1 := Db([[FIRST]], [])
  const D2 := Db([[FIRST]], [RunOf(0, 1, "k", Queued)])
  const D3 := Db([[FIRST]], [RunOf(0, 1, "k", Leased)])
  const D4 := Db([[FIRST]], [RunOf(0, 1, "k", TimedOut)])
  const D5 := Db([[FIRST, FIRST_LATE]], [RunOf(0, 1, "k", TimedOut)])

  lemma Step1()
    ensures NextDb(EMPTY.db, StartAttempt("a")) == D1
  {
  }

  lemma Step2()
    ensures NextDb(D1, DoSchedule(0, 7, true, "k", 2)) == D2
  {
  }

  lemma Step3()
    ensures NextDb(D2, DoLease(1, 0, 0)) == D3
  {
  }

  lemma Step4()
    ensures Writes(D3, Held(0, D3.runs[0].job), Expire(9, 0)) == D4
  {
  }

  lemma ReconcileD4()
    ensures ReconcileOne(D4, 0) == Ok(D5)
  {
    assert SameStage(D4.runs[0], 0, Explore);
    assert HasNumber(D4.runs, 0, Explore, 1, 2);
    assert Verified(D4, 0);
    assert !VersionKeyUsed(D4.attempts, ReconcileKey(0, Late));
    assert D4.attempts[0] + [FIRST_LATE] == [FIRST, FIRST_LATE];
    assert Appended(D4, 0, FIRST_LATE).attempts == D5.attempts;
  }

  lemma Step5()
    ensures Writes(D4, Held(0, D4.runs[0].job), Settle(9)) == D5
  {
    ReconcileD4();
  }

  const D6 := Db([[FIRST, FIRST_LATE, SECOND]], [RunOf(0, 1, "k", TimedOut)])
  const D7 := Db([[FIRST, FIRST_LATE, SECOND]], [RunOf(0, 1, "k", TimedOut), RunOf(2, 2, "l", Queued)])
  const D8 := Db([[FIRST, FIRST_LATE, SECOND]], [RunOf(0, 1, "k", TimedOut), RunOf(2, 2, "l", Leased)])
  const D9 := Db([[FIRST, FIRST_LATE, SECOND]], [RunOf(0, 1, "k", TimedOut), RunOf(2, 2, "l", Failed)])
  const D10 := Db([[FIRST, FIRST_LATE, SECOND, SECOND_BROKEN]], [RunOf(0, 1, "k", TimedOut), RunOf(2, 2, "l", Failed)])
  const THIRD := Explored(Pending, "retry_scheduled", CallerKey("c"))
  const D11 := Db([[FIRST, FIRST_LATE, SECOND, SECOND_BROKEN, THIRD]], [RunOf(0, 1, "k", TimedOut), RunOf(2, 2, "l", Failed)])

  lemma FirstVerified(db: Db)
    requires |db.runs| > 0 && db.runs[0] == RunOf(0, 1, "k", TimedOut)
    requires |db.attempts| == 1 && |db.attempts[0]| > 0 && db.attempts[0][0] == FIRST
    ensures Verified(db, 0)
  {
    assert SameStage(db.runs[0], 0, Explore);
    assert HasNumber(db.runs, 0, Explore, 1, 2);
  }

  lemma Step6()
    ensures NextDb(D5, DoRetry(0, "b")) == D6
  {
    FirstVerified(D5);
    assert !VersionKeyUsed(D5.attempts, CallerKey("b"));
    assert D5.attempts[0] + [SECOND] == [FIRST, FIRST_LATE, SECOND];
    assert Appended(D5, 0, SECOND).attempts == D6.attempts;
  }

  lemma Step7()
    ensures NextDb(D6, DoSchedule(0, 7, true, "l", 2)) == D7
  {
    FirstVerified(D6);
    assert FindKey(D6.runs, "l", 0).None?;
    assert LastRun(D6.runs, 0, Explore, 1) == Some(0);
    assert !PendingTaken(D6.runs, 0, 2);
  }

  lemma Step8()
    ensures NextDb(D7, DoLease(1, 0, 1)) == D8
  {
  }

  lemma Step9()
    ensures NextDb(D8, JobFail(1, 1)) == D9
  {
  }

  lemma ReconcileD9()
    ensures ReconcileOne(D9, 1) == Ok(D10)
  {
    assert SameStage(D9.runs[0], 0, Explore) && SameStage(D9.runs[1], 0, Explore);
    assert HasNumber(D9.runs, 0, Explore, 1, 2) && HasNumber(D9.runs, 0, Explore, 2, 2);
    assert Verified(D9, 1);
    assert !VersionKeyUsed(D9.attempts, ReconcileKey(1, Broken));
    assert D9.attempts[0] + [SECOND_BROKEN] == [FIRST, FIRST_LATE, SECOND, SECOND_BROKEN];
    assert Appended(D9, 0, SECOND_BROKEN).attempts == D10.attempts;
  }

  lemma Step10()
    ensures Writes(D9, Held(1, D9.runs[1].job), Settle(9)) == D10
  {
    ReconcileD9();
  }

  lemma Step11()
    ensures NextDb(D10, DoRetry(0, "c")) == D11
  {
    FirstVerified(D10);
    assert !VersionKeyUsed(D10.attempts, CallerKey("c"));
    assert D10.attempts[0] + [THIRD] == [FIRST, FIRST_LATE, SECOND, SECOND_BROKEN, THIRD];
    assert Appended(D10, 0, THIRD).attempts == D11.attempts;
  }

  // A session's row, read and written at once, at the end of a run.
  lemma ReadWritten(db: Db, steps: seq<Step>, r: nat, step: Step) returns (more: seq<Step>)
    requires After(EMPTY, steps) == Plain(db) && r < |db.runs| && OfSession(step) && step.session == 9
    ensures After(EMPTY, more) == Plain(Writes(db, Held(r, db.runs[r].job), step))
  {
    OneMore(EMPTY, steps, ReadRow(9, r));
    OneMore(EMPTY, steps + [ReadRow(9, r)], step);
    ReadAndWrite(db, r, step);
    more := steps + [ReadRow(9, r)] + [step];
  }

  lemma ReachesD3() returns (steps: seq<Step>)
    ensures After(EMPTY, steps) == Plain(D3)
  {
    steps := [];
    OneMore(EMPTY, steps, StartAttempt("a")); steps := steps + [StartAttempt("a")]; Step1();
    OneMore(EMPTY, steps, DoSchedule(0, 7, true, "k", 2)); steps := steps + [DoSchedule(0, 7, true, "k", 2)]; Step2();
    OneMore(EMPTY, steps, DoLease(1, 0, 0)); steps := steps + [DoLease(1, 0, 0)]; Step3();
  }

  lemma ReachesD5() returns (steps: seq<Step>)
    ensures After(EMPTY, steps) == Plain(D5)
  {
    steps := ReachesD3();
    steps := ReadWritten(D3, steps, 0, Expire(9, 0)); Step4();
    steps := ReadWritten(D4, steps, 0, Settle(9)); Step5();
  }

  lemma ReachesD10() returns (steps: seq<Step>)
    ensures After(EMPTY, steps) == Plain(D10)
  {
    steps := ReachesD5();
    OneMore(EMPTY, steps, DoRetry(0, "b")); steps := steps + [DoRetry(0, "b")]; Step6();
    OneMore(EMPTY, steps, DoSchedule(0, 7, true, "l", 2)); steps := steps + [DoSchedule(0, 7, true, "l", 2)]; Step7();
    OneMore(EMPTY, steps, DoLease(1, 0, 1)); steps := steps + [DoLease(1, 0, 1)]; Step8();
    OneMore(EMPTY, steps, JobFail(1, 1)); steps := steps + [JobFail(1, 1)]; Step9();
    steps := ReadWritten(D9, steps, 1, Settle(9)); Step10();
  }

  // A completion of the first run, which timed out, is acknowledged with the failure of
  // the second.
  lemma LaterOutcomeAcknowledged() returns (steps: seq<Step>)
    ensures var db := After(EMPTY, steps).db;
      |db.runs| == 2 && db.runs[0].job.state == TimedOut
      && |db.attempts| == 1 && |db.attempts[0]| == 4 && Complete(db, 0, 1, Broken, "worker_failed", None, false, 0) == Ok((db, 3))
      && Outcome(db.attempts[0], db.runs[0].pending) == Some(db.attempts[0][1]) && db.attempts[0][1].status == Late
  {
    steps := ReachesD10();
    FirstVerified(D10);
  }

  // prepare_retry, given the first of two runs under a budget of two, opens a stage that
  // no call can schedule or end any more.
  lemma RetryOfOlderRunSticks(more: seq<Step>) returns (steps: seq<Step>)
    ensures var db := After(After(EMPTY, steps), more).db; Stuck(db, 0) && db.attempts[0] == D11.attempts[0]
  {
    steps := ReachesD10();
    OneMore(EMPTY, steps, DoRetry(0, "c")); steps := steps + [DoRetry(0, "c")]; Step11();
    ReachableInv(steps);
    assert LastRun(D11.runs, 0, Explore, 2) == Some(1);
    assert !PendingTaken(D11.runs, 0, 4);
    assert Stuck(D11, 0);
    StuckForever(After(EMPTY, steps), 0, more);
  }

  // ---------- A success that is written over ----------

  const BEGUN := Version(Explore, Started, "stage_started", Some(7), None, RunKey(0, Started))
  const DONE := Version(Explore, Done, "explored", Some(7), Some(3), RunKey(0, Done))
  const RUNNING := RunOf(0, 1, "k", JobState.Running).(job := Job(JobState.Running, Some(1), 0, false, 1))

  const E4 := Db([[FIRST, BEGUN]], [RUNNING])
  const E5 := Db([[FIRST, BEGUN, DONE]], [RunOf(0, 1, "k", Succeeded)])
  const E6 := Db([[FIRST, BEGUN, DONE]], [RunOf(0, 1, "k", TimedOut)])
  const READ := map[9 := Held(0, RUNNING.job)]

  lemma RunVerified(db: Db, state: JobState)
    requires |db.runs| > 0 && db.runs[0] == RunOf(0, 1, "k", state).(job := db.runs[0].job)
    requires |db.attempts| == 1 && |db.attempts[0]| > 0 && db.attempts[0][0] == FIRST
    ensures Verified(db, 0)
  {
    assert SameStage(db.runs[0], 0, Explore);
    assert HasNumber(db.runs, 0, Explore, 1, 2);
  }

  lemma BeginD3()
    ensures NextDb(D3, DoBegin(0, 1, 7, true, -1)) == E4
  {
    RunVerified(D3, Leased);
    assert !VersionKeyUsed(D3.attempts, RunKey(0, Started));
    assert D3.attempts[0] + [BEGUN] == [FIRST, BEGUN];
    assert Appended(D3, 0, BEGUN).attempts == E4.attempts;
  }

  lemma CompleteE4()
    ensures NextDb(E4, DoComplete(0, 1, Done, "explored", Some(3), true, -1)) == E5
  {
    RunVerified(E4, JobState.Running);
    assert !VersionKeyUsed(E4.attempts, RunKey(0, Done));
    assert E4.attempts[0] + [DONE] == [FIRST, BEGUN, DONE];
    assert Appended(E4, 0, DONE).attempts == E5.attempts;
  }

  // A session has read the row as running, and the run has succeeded since.
  lemma ReachesE5() returns (steps: seq<Step>)
    ensures After(EMPTY, steps) == State(E5, READ)
  {
    steps := ReachesD3();
    OneMore(EMPTY, steps, DoBegin(0, 1, 7, true, -1)); steps := steps + [DoBegin(0, 1, 7, true, -1)]; BeginD3();
    OneMore(EMPTY, steps, ReadRow(9, 0)); steps := steps + [ReadRow(9, 0)];
    OneMore(EMPTY, steps, DoComplete(0, 1, Done, "explored", Some(3), true, -1));
    steps := steps + [DoComplete(0, 1, Done, "explored", Some(3), true, -1)];
    CompleteE4();
  }

  // A reaper reads a running job whose lease is over by its clock; the worker completes it
  // before the reaper writes. The job is then timed out and its stage has succeeded, and
  // settling it is refused for ever after.
  lemma ReaperOverSuccess(more: seq<Step>) returns (steps: seq<Step>)
    ensures var s := After(EMPTY, steps);
      s.db.runs == [RunOf(0, 1, "k", TimedOut)] && |s.db.attempts| == 1 && Outcome(s.db.attempts[0], 0) == Some(DONE)
      && ReconcileOne(s.db, 0) == Err(Conflict)
    ensures var db := After(After(EMPTY, steps), more).db;
      |db.runs| > 0 && SettleAs(db, 0, TimedOut) == Err(Conflict)
  {
    steps := ReachesE5();
    OneMore(EMPTY, steps, Expire(9, 0)); steps := steps + [Expire(9, 0)];
    assert READ - {9} == map[];
    RunVerified(E6, TimedOut);
    var s := After(EMPTY, steps);
    ReachableInv(steps);
    Reachable(s, more);
    NeverSettled(s.db, After(s, more).db);
  }

  lemma NeverSettled(db: Db, next: Db)
    requires db == E6 && DbOk(next) && RunsGo(db.runs, next.runs) && VersionsGo(db.attempts, next.attempts)
    ensures |next.runs| > 0 && SettleAs(next, 0, TimedOut) == Err(Conflict)
  {
    var v := next.attempts[0];
    assert RunGoes(db.runs[0], next.runs[0]) && db.attempts[0] <= v;
    SettlesAs(next, 0, TimedOut);
    assert HistoryOk(v) && v[2] == DONE;
    if |v| > 3 {
      StagesRise(v, 2, |v| - 1);
    }
  }

  // request_cancel reads the job as running; the run succeeds before it writes. The
  // cancellation is accepted, and stands on the row of a job that has succeeded.
  lemma CancelledAfterSuccess() returns (steps: seq<Step>, session: nat)
    ensures var s := After(EMPTY, steps);
      var t := Next(s, CancelRun(session)).db;
      session in s.held && s.held[session].run == 0 && UnderWay(s.held[session].job.state) && |s.db.runs| == 1
      && RequestCancel(s.db, 0, s.held[session].job) == Ok(t)
      && t.runs == [RunOf(0, 1, "k", Succeeded).(job := Job(Succeeded, None, 0, true, 1))]
  {
    steps := ReachesE5();
    session := 9;
    RunVerified(E5, Succeeded);
  }
}
