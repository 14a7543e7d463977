// What a call on the stage-run control settles for every later state.
module StageFutures {
  import opened Prelude
  import opened Jobs
  import opened StageControl
  import opened StageRuns
  import opened StageCoupling
  import opened StageGuarantees

  // ---------- Scheduling ----------

  lemma {:induction false} FindKeyStays(runs: seq<Run>, more: seq<Run>, key: string, from: nat)
    requires from <= |runs| && RunsGo(runs, more) && FindKey(runs, key, from).Some?
    ensures FindKey(more, key, from) == FindKey(runs, key, from)
    decreases |runs| - from
  {
    assert from < |runs| && RunGoes(runs[from], more[from]);
    if runs[from].key != key {
      FindKeyStays(runs, more, key, from + 1);
    }
  }

  lemma {:induction false} FindKeyNew(runs: seq<Run>, run: Run, from: nat)
    requires from <= |runs| && FindKey(runs, run.key, from).None?
    ensures FindKey(runs + [run], run.key, from) == Some(|runs|)
    decreases |runs| - from
  {
    if from < |runs| {
      FindKeyNew(runs, run, from + 1);
    }
  }

  // The key of an accepted schedule stands for its run in every later state: the same
  // request is answered with it, whatever became of the run, and any other is refused;
  // neither changes anything.
  lemma ScheduledOnce(steps: seq<Step>, a: nat, spec: nat, specOk: bool, key: string, max: int, more: seq<Step>, b: nat, other: nat, otherOk: bool, limit: int)
    requires Schedule(After(EMPTY, steps).db, a, spec, specOk, key, max).Ok?
    requires var u := After(Next(After(EMPTY, steps), DoSchedule(a, spec, specOk, key, max)), more).db;
      b < |u.attempts| && 1 <= limit <= MAX_STAGE_RUNS
    ensures var r := Schedule(After(EMPTY, steps).db, a, spec, specOk, key, max).value.1;
      var u := After(Next(After(EMPTY, steps), DoSchedule(a, spec, specOk, key, max)), more).db;
      Schedule(u, b, other, otherOk, key, limit) == if (b, other, limit) == (a, spec, max) then Ok((u, r)) else Err(Conflict)
  {
    ReachableDb(steps);
    var s := After(EMPTY, steps);
    var (next, r) := Schedule(s.db, a, spec, specOk, key, max).value;
    StepKeeps(s, DoSchedule(a, spec, specOk, key, max));
    Reachable(s.(db := next), more);
    var u := After(s.(db := next), more).db;
    ScheduledKey(s.db, a, spec, specOk, key, max);
    FindKeyStays(next.runs, u.runs, key, 0);
    assert RunGoes(next.runs[r], u.runs[r]);
    AllVerified(u, r);
    assert HistoryOk(u.attempts[b]);
  }

  lemma ScheduledKey(db: Db, a: nat, spec: nat, specOk: bool, key: string, max: int)
    requires Schedule(db, a, spec, specOk, key, max).Ok?
    ensures var (next, r) := Schedule(db, a, spec, specOk, key, max).value;
      FindKey(next.runs, key, 0) == Some(r) && r < |next.runs|
      && next.runs[r].attempt == a && next.runs[r].spec == spec && next.runs[r].max == max
  {
    var (next, r) := Schedule(db, a, spec, specOk, key, max).value;
    if FindKey(db.runs, key, 0).None? {
      FindKeyNew(db.runs, next.runs[|db.runs|], 0);
    }
  }

  // ---------- Beginning ----------

  // The stage has begun or was stopped; if the job runs, it runs for w.
  predicate BegunBy(db: Db, r: nat, w: nat) {
    r < |db.runs| && db.runs[r].attempt < |db.attempts| && db.runs[r].pending + 1 < |db.attempts[db.runs[r].attempt]|
    && (db.runs[r].job.state == JobState.Running ==> db.runs[r].job.owner == Some(w))
  }

  // The job runs for v, and the current version is the running one of its stage.
  predicate Serves(db: Db, r: nat, v: nat) {
    r < |db.runs| && db.runs[r].attempt < |db.attempts| && |db.attempts[db.runs[r].attempt]| == db.runs[r].pending + 2
    && db.runs[r].job.state == JobState.Running && db.runs[r].job.owner == Some(v)
  }

  // Nothing starts a job whose stage is not waiting.
  predicate OnlyGoesOn(a: StageControl.Job, b: StageControl.Job) {
    b.state == JobState.Running ==> a.state == JobState.Running && b.owner == a.owner
  }

  lemma NothingStarts(db: Db, step: Step, r: nat)
    requires r < |db.runs| && db.runs[r].attempt < |db.attempts| && db.runs[r].pending + 1 < |db.attempts[db.runs[r].attempt]|
    ensures r < |NextDb(db, step).runs| && OnlyGoesOn(db.runs[r].job, NextDb(db, step).runs[r].job)
  {
  }

  lemma NoSessionStarts(db: Db, h: Held, step: Step, r: nat)
    requires r < |db.runs|
    ensures r < |Writes(db, h, step).runs| && OnlyGoesOn(db.runs[r].job, Writes(db, h, step).runs[r].job)
  {
  }

  lemma BegunStep(s: State, step: Step, r: nat, w: nat)
    requires BegunBy(s.db, r, w)
    ensures BegunBy(Next(s, step).db, r, w)
  {
    StepGoes(s, step);
    assert RunGoes(s.db.runs[r], Next(s, step).db.runs[r]);
    assert s.db.attempts[s.db.runs[r].attempt] <= Next(s, step).db.attempts[s.db.runs[r].attempt];
    if OfSession(step) && step.session in s.held {
      NoSessionStarts(s.db, s.held[step.session], step, r);
    } else if !OfSession(step) && !step.ReadRow? {
      NothingStarts(s.db, step, r);
    }
  }

  lemma {:induction false} BegunStays(s: State, steps: seq<Step>, r: nat, w: nat)
    requires BegunBy(s.db, r, w)
    ensures BegunBy(After(s, steps).db, r, w)
    decreases |steps|
  {
    if steps != [] {
      BegunStep(s, steps[0], r, w);
      BegunStays(Next(s, steps[0]), steps[1..], r, w);
    }
  }

  lemma BeginBegins(db: Db, r: nat, w: nat, spec: nat, inputsOk: bool, now: int)
    requires DbOk(db) && Begin(db, r, w, spec, inputsOk, now).Ok?
    ensures BegunBy(Begin(db, r, w, spec, inputsOk, now).value, r, w)
    ensures Begin(db, r, w, spec, inputsOk, now).value.runs[r].job.state == JobState.Running
    ensures Begin(db, r, w, spec, inputsOk, now).value.runs[r].job.attempts >= 1
  {
    assert RunOk(db, r);
  }

  lemma BeginAgain(db: Db, r: nat, w: nat, v: nat, spec: nat, inputsOk: bool, now: int)
    requires DbOk(db) && BegunBy(db, r, w)
    ensures Begin(db, r, v, spec, inputsOk, now) == if Serves(db, r, v) then Ok(db) else Err(Conflict)
    ensures Serves(db, r, v) ==> v == w
  {
    assert RunOk(db, r);
    AllVerified(db, r);
    assert HistoryOk(db.attempts[db.runs[r].attempt]);
  }

  // A run that was begun is begun for good: in every later state, beginning it again
  // changes nothing, and is accepted exactly of the worker that began it while its job
  // runs and the running stage is current. Unless a session has come to overturn it, the
  // run still runs or has ended.
  lemma BegunOnce(steps: seq<Step>, r: nat, w: nat, spec: nat, inputsOk: bool, now: int, more: seq<Step>, v: nat, other: nat, otherOk: bool, later: int)
    requires Begin(After(EMPTY, steps).db, r, w, spec, inputsOk, now).Ok?
    ensures var t := Next(After(EMPTY, steps), DoBegin(r, w, spec, inputsOk, now));
      var u := After(t, more).db;
      Begin(u, r, v, other, otherOk, later) == (if Serves(u, r, v) then Ok(u) else Err(Conflict))
      && (Serves(u, r, v) ==> v == w)
      && (NeverReversed(t, more, r) ==> r < |u.runs| && (u.runs[r].job.state == JobState.Running || Terminal(u.runs[r].job.state)))
  {
    ReachableDb(steps);
    var s := After(EMPTY, steps);
    var t := Next(s, DoBegin(r, w, spec, inputsOk, now));
    StepKeeps(s, DoBegin(r, w, spec, inputsOk, now));
    BeginBegins(s.db, r, w, spec, inputsOk, now);
    Reachable(t, more);
    BegunStays(t, more, r, w);
    BeginAgain(After(t, more).db, r, w, v, other, otherOk, later);
    if NeverReversed(t, more, r) {
      Stands(t, more, r);
    }
  }

  // ---------- Cancellation ----------

  predicate NotDone(db: Db, r: nat) {
    r < |db.runs| && db.runs[r].attempt < |db.attempts| && db.runs[r].job.state != Succeeded &&
    var outcome := Outcome(db.attempts[db.runs[r].attempt], db.runs[r].pending);
    (outcome.Some? ==> outcome.value.status != Done)
  }

  // The run's stage has ended, but did not succeed.
  predicate EndedLost(db: Db, r: nat) {
    r < |db.runs| && db.runs[r].attempt < |db.attempts| &&
    var outcome := Outcome(db.attempts[db.runs[r].attempt], db.runs[r].pending);
    outcome.Some? && outcome.value.status != Done
  }

  lemma EndedLostStays(db: Db, next: Db, r: nat)
    requires DbOk(next) && EndedLost(db, r) && RunsGo(db.runs, next.runs) && VersionsGo(db.attempts, next.attempts)
    ensures NotDone(next, r)
  {
    assert RunGoes(db.runs[r], next.runs[r]) && RunOk(next, r);
    assert db.attempts[db.runs[r].attempt] <= next.attempts[db.runs[r].attempt];
  }

  function Rank(stage: Stage): nat {
    match stage case Explore => 0 case Implement => 1 case Verify => 2
  }

  // A stage that succeeded is never current again.
  lemma {:induction false} StagesRise(v: seq<Version>, i: nat, k: nat)
    requires HistoryOk(v) && i < k < |v|
    ensures Rank(v[i].stage) <= Rank(v[k].stage) && (v[i].status == Done ==> Rank(v[i].stage) < Rank(v[k].stage))
    decreases k
  {
    assert EdgeOk(v[k - 1], v[k]);
    if i < k - 1 {
      StagesRise(v, i, k - 1);
    }
  }

  lemma LostIsEndedLost(db: Db, r: nat)
    requires DbOk(db) && r < |db.runs| && LostHere(db, r)
    ensures EndedLost(db, r)
  {
    assert RunOk(db, r);
    var v := db.attempts[db.runs[r].attempt];
    var p := db.runs[r].pending;
    assert HistoryOk(v) && p + 1 < |v| && EdgeOk(v[(p + 1) - 1], v[p + 1]);
    var k := if Final(v[p + 1].status) then p + 1 else p + 2;
    assert k < |v|;
    if k == p + 2 {
      assert EdgeOk(v[(p + 2) - 1], v[p + 2]);
    }
    if k < |v| - 1 {
      StagesRise(v, k, |v| - 1);
    }
  }

  // A request that found the job waiting has stopped its stage; one that found it dead has
  // settled it.
  lemma CancelEnds(db: Db, r: nat, h: StageControl.Job)
    requires DbOk(db) && r < |db.runs| && RequestCancel(db, r, h).Ok? && (h.state == Queued || Dead(h.state))
    ensures EndedLost(RequestCancel(db, r, h).value, r)
  {
    AllVerified(db, r);
    assert RunOk(db, r);
    if h.state == Queued {
      FinishKeeps(db, r, Cancelling(db.runs[r].job, h), Stopped, "cancellation_requested", None, RunKey(r, Stopped));
    } else {
      SettlesAs(db, r, h.state);
      SettledIsLost(db, r, h.state);
      LostIsEndedLost(SettleAs(db, r, h.state).value, r);
    }
  }

  lemma SettledIsLost(db: Db, r: nat, state: JobState)
    requires DbOk(db) && r < |db.runs| && Dead(state) && SettleAs(db, r, state).Ok?
    ensures LostHere(SettleAs(db, r, state).value, r)
  {
    SettlesAs(db, r, state);
    assert RunOk(db, r);
    AtTheEnd(db.attempts[db.runs[r].attempt], db.runs[r]);
  }

  lemma OutcomeGrows(v: seq<Version>, e: Version, p: nat)
    requires p < |v|
    ensures if Outcome(v, p).Some? then Outcome(v + [e], p) == Outcome(v, p)
      else Outcome(v + [e], p).Some? ==> Outcome(v + [e], p).value == e && (Owns(v, p) || v[p].status != Pending)
  {
  }

  // Only the completion of the run itself makes its stage succeed.
  predicate NoneDone(db: Db, next: Db, r: nat)
    requires r < |db.runs|
  {
    |db.attempts| <= |next.attempts| && r < |next.runs| && next.runs[r] == db.runs[r].(job := next.runs[r].job)
    && (next.runs[r].job.state == Succeeded ==> db.runs[r].job.state == Succeeded)
    && (db.runs[r].attempt < |db.attempts| ==>
          var v, u := db.attempts[db.runs[r].attempt], next.attempts[db.runs[r].attempt];
          u == v || (|u| == |v| + 1 && u == v + [Last(u)] && Last(u).status != Done))
  }

  lemma NoneDoneKeeps(db: Db, next: Db, r: nat)
    requires DbOk(db) && NotDone(db, r) && NoneDone(db, next, r)
    ensures NotDone(next, r)
  {
    assert RunOk(db, r);
    var v := db.attempts[db.runs[r].attempt];
    var u := next.attempts[db.runs[r].attempt];
    if u != v {
      OutcomeGrows(v, Last(u), db.runs[r].pending);
    }
  }

  lemma RunsDoNothing(db: Db, step: Step, r: nat)
    requires r < |db.runs| && (step.DoHeartbeat? || step.DoBegin? || step.DoLease? || step.JobFail? || step.DoSchedule?)
    ensures NoneDone(db, NextDb(db, step), r)
  {
  }

  lemma LosingDoesNothing(db: Db, step: Step, r: nat)
    requires r < |db.runs| && step.DoComplete? && step.target != Done
    ensures NoneDone(db, NextDb(db, step), r)
  {
  }

  lemma OthersDoNothing(db: Db, step: Step, r: nat)
    requires r < |db.runs| && !(step.DoComplete? && step.target == Done)
    ensures NoneDone(db, NextDb(db, step), r)
  {
    if step.DoHeartbeat? || step.DoBegin? || step.DoLease? || step.JobFail? || step.DoSchedule? {
      RunsDoNothing(db, step, r);
    } else if step.DoComplete? {
      LosingDoesNothing(db, step, r);
    }
  }

  lemma SessionsDoNothing(db: Db, h: Held, step: Step, r: nat)
    requires r < |db.runs|
    ensures NoneDone(db, Writes(db, h, step), r)
  {
  }

  lemma DoomedCompletion(db: Db, step: Step, r: nat)
    requires DbOk(db) && NotDone(db, r) && Doomed(db.runs[r].job) && step.DoComplete? && step.target == Done
    ensures NotDone(NextDb(db, step), r)
  {
    var next := NextDb(db, step);
    if next != db {
      var q := step.run;
      assert RunOk(db, q) && RunOk(db, r);
      var a := db.runs[q].attempt;
      if db.runs[r].attempt == a {
        OutcomeGrows(db.attempts[a], Last(next.attempts[a]), db.runs[r].pending);
        if Owns(db.attempts[a], db.runs[r].pending) {
          OneOwner(db, r, q);
        }
      }
    }
  }

  lemma DoomedStep(s: State, step: Step, r: nat)
    requires Inv(s) && NotDone(s.db, r) && Doomed(s.db.runs[r].job)
    ensures NotDone(Next(s, step).db, r)
  {
    if OfSession(step) {
      if step.session in s.held {
        SessionsDoNothing(s.db, s.held[step.session], step, r);
        NoneDoneKeeps(s.db, Next(s, step).db, r);
      }
    } else if step.DoComplete? && step.target == Done {
      DoomedCompletion(s.db, step, r);
    } else if !step.ReadRow? {
      OthersDoNothing(s.db, step, r);
      NoneDoneKeeps(s.db, NextDb(s.db, step), r);
    }
  }

  lemma {:induction false} DoomedNeverDone(s: State, steps: seq<Step>, r: nat)
    requires Inv(s) && NotDone(s.db, r) && Doomed(s.db.runs[r].job) && s.db.runs[r].job.attempts >= 1
    requires NeverReversed(s, steps, r)
    ensures NotDone(After(s, steps).db, r)
    decreases |steps|
  {
    if steps != [] {
      StepKeeps(s, steps[0]);
      StepStands(s, steps[0], r);
      DoomedStep(s, steps[0], r);
      DoomedNeverDone(Next(s, steps[0]), steps[1..], r);
    }
  }

  // A cancellation is accepted of a run whose job was read as h. If it waited or was dead
  // then, neither its job nor its stage ever succeeds, whatever is written later. If it
  // was under way, the same holds if it has not succeeded by the time of the write and no
  // session comes to overturn it later.
  lemma CancelledNeverSucceeds(steps: seq<Step>, session: nat, more: seq<Step>)
    requires session in After(EMPTY, steps).held
    requires var s := After(EMPTY, steps);
      var h := s.held[session];
      var t := Next(s, CancelRun(session));
      RequestCancel(s.db, h.run, h.job).Ok? && h.job.state != Succeeded
      && (UnderWay(h.job.state) ==> NotDone(s.db, h.run) && NeverReversed(t, more, h.run) && (h.job.cancelRequested ==> Doomed(s.db.runs[h.run].job)))
    ensures NotDone(After(Next(After(EMPTY, steps), CancelRun(session)), more).db, After(EMPTY, steps).held[session].run)
  {
    ReachableDb(steps);
    var s := After(EMPTY, steps);
    var h := s.held[session];
    var t := Next(s, CancelRun(session));
    assert HeldOk(s.db, h);
    if UnderWay(h.job.state) {
      FlagDooms(s, session, more);
    } else {
      StepKeeps(s, CancelRun(session));
      Reachable(t, more);
      CancelEnds(s.db, h.run, h.job);
      EndedLostStays(t.db, After(t, more).db, h.run);
    }
  }

  lemma FlagDooms(s: State, session: nat, more: seq<Step>)
    requires Inv(s) && session in s.held && UnderWay(s.held[session].job.state)
    requires var h := s.held[session];
      NotDone(s.db, h.run) && RequestCancel(s.db, h.run, h.job).Ok? && (h.job.cancelRequested ==> Doomed(s.db.runs[h.run].job))
      && NeverReversed(Next(s, CancelRun(session)), more, h.run)
    ensures NotDone(After(Next(s, CancelRun(session)), more).db, s.held[session].run)
  {
    var h := s.held[session];
    var t := Next(s, CancelRun(session));
    assert HeldOk(s.db, h);
    StepKeeps(s, CancelRun(session));
    SessionsDoNothing(s.db, h, CancelRun(session), h.run);
    NoneDoneKeeps(s.db, t.db, h.run);
    DoomedNeverDone(t, more, h.run);
  }

  // A request written after the run has succeeded stays accepted, and the run succeeded:
  // the condition above is the exact one at the time of the write.
  lemma AcceptedTooLateIff(steps: seq<Step>, session: nat)
    requires session in After(EMPTY, steps).held
    requires var s := After(EMPTY, steps);
      var h := s.held[session];
      UnderWay(h.job.state) && !h.job.cancelRequested
    ensures var s := After(EMPTY, steps);
      var h := s.held[session];
      var t := Next(s, CancelRun(session));
      HeldOk(s.db, h) && HeldOk(t.db, h) && RequestCancel(s.db, h.run, h.job).Ok? && t.db.runs[h.run].job.cancelRequested
      && (Doomed(t.db.runs[h.run].job) <==> s.db.runs[h.run].job.state != Succeeded)
      && t.db.runs[h.run].job.state == s.db.runs[h.run].job.state
  {
    ReachableDb(steps);
    var s := After(EMPTY, steps);
    var h := s.held[session];
    assert HeldOk(s.db, h);
    AllVerified(s.db, h.run);
  }
}
