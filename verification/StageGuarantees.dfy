// What the stage-run control protocol promises in every state it can reach, from no
// attempts at all, by any sequence of calls, whichever of them are refused and whatever
// sessions write over rows that have changed since they read them.
module StageGuarantees {
  import opened Prelude
  import opened Jobs
  import opened StageControl
  import opened StageRuns
  import opened StageCoupling

  lemma ReachableDb(steps: seq<Step>)
    ensures Inv(After(EMPTY, steps)) && DbOk(After(EMPTY, steps).db)
  {
    ReachableInv(steps);
  }

  lemma UnspoiledCoupled(steps: seq<Step>, r: nat)
    requires NeverSpoiled(EMPTY, steps, r) && r < |After(EMPTY, steps).db.runs|
    ensures Coupled(After(EMPTY, steps).db, r)
  {
    StaysCoupled(EMPTY, steps, r);
  }

  // ---------- A job and its stage ----------

  // A running job has a running stage that followed its own pending version and carries
  // the run's job specification; that is the attempt's current version unless a write took
  // the two apart.
  lemma RunningJobRunsItsStage(steps: seq<Step>, r: nat)
    requires r < |After(EMPTY, steps).db.runs| && After(EMPTY, steps).db.runs[r].job.state == Running
    ensures var db := After(EMPTY, steps).db;
      var run := db.runs[r];
      run.attempt < |db.attempts| && Began(db.attempts[run.attempt], run)
      && db.attempts[run.attempt][run.pending + 1].stage == run.stage
      && (NeverSpoiled(EMPTY, steps, r) ==> |db.attempts[run.attempt]| == run.pending + 2)
  {
    ReachableDb(steps);
    var db := After(EMPTY, steps).db;
    assert RunOk(db, r);
    var v := db.attempts[db.runs[r].attempt];
    assert HistoryOk(v);
    assert EdgeOk(v[(db.runs[r].pending + 1) - 1], v[db.runs[r].pending + 1]);
    if NeverSpoiled(EMPTY, steps, r) {
      UnspoiledCoupled(steps, r);
    }
  }

  // A run that has succeeded has ended its stage with a result; and it was not asked to
  // cancel, unless a write took the two apart.
  lemma SuccessHasItsResult(steps: seq<Step>, r: nat)
    requires r < |After(EMPTY, steps).db.runs| && After(EMPTY, steps).db.runs[r].job.state == Succeeded
    ensures var db := After(EMPTY, steps).db;
      var run := db.runs[r];
      run.attempt < |db.attempts| && EndedDone(db.attempts[run.attempt], run.pending)
      && (NeverSpoiled(EMPTY, steps, r) ==> !run.job.cancelRequested)
  {
    ReachableDb(steps);
    assert RunOk(After(EMPTY, steps).db, r);
    if NeverSpoiled(EMPTY, steps, r) {
      UnspoiledCoupled(steps, r);
    }
  }

  // A run that still owns the end of its attempt.
  predicate Current(db: Db, r: nat)
    requires r < |db.runs|
  {
    db.runs[r].attempt < |db.attempts| && Owns(db.attempts[db.runs[r].attempt], db.runs[r].pending)
  }

  // The stage of an ended job ends as the job did, or was stopped, or is still to be
  // settled, unless a write took the two apart.
  lemma StageEndsAsItsJob(steps: seq<Step>, r: nat)
    requires r < |After(EMPTY, steps).db.runs| && Terminal(After(EMPTY, steps).db.runs[r].job.state)
    requires NeverSpoiled(EMPTY, steps, r)
    ensures var db := After(EMPTY, steps).db;
      var run := db.runs[r];
      run.attempt < |db.attempts| &&
      match Outcome(db.attempts[run.attempt], run.pending)
      case Some(version) => JobEnd(version.status) == run.job.state || version.status == Stopped
      case None => Current(db, r) && Dead(run.job.state)
  {
    ReachableDb(steps);
    UnspoiledCoupled(steps, r);
    assert RunOk(After(EMPTY, steps).db, r);
  }

  // What "taken apart" means: job and stage go together until a session comes to write
  // one of those writes, and a step takes them apart exactly if it is one. A session whose
  // row is as it was read never does, nor does it overturn what has ended.
  lemma TakenApartIff(steps: seq<Step>, r: nat, step: Step)
    requires NeverSpoiled(EMPTY, steps, r) && r < |After(EMPTY, steps).db.runs|
    ensures var s := After(EMPTY, steps);
      Coupled(s.db, r) && (Coupled(Next(s, step).db, r) <==> !Spoils(s, step, r))
      && (AsRead(s, step, r) ==> !Spoils(s, step, r) && !Reverses(s, step, r))
  {
    ReachableDb(steps);
    UnspoiledCoupled(steps, r);
    var s := After(EMPTY, steps);
    StepCouples(s, step, r);
    if AsRead(s, step, r) {
      AsReadKeeps(s, step, r);
      AsReadStands(s, step, r);
    }
  }

  // ---------- Settling ----------

  // The current version of the attempt says that this stage is lost.
  predicate LostHere(db: Db, r: nat)
    requires r < |db.runs|
  {
    db.runs[r].attempt < |db.attempts| &&
    var v := db.attempts[db.runs[r].attempt];
    v != [] && Lost(Last(v).status) && Last(v).stage == db.runs[r].stage
  }

  predicate CanSettle(db: Db, r: nat)
    requires r < |db.runs|
  {
    Current(db, r) || LostHere(db, r)
  }

  lemma SettlesIff(db: Db, r: nat, state: JobState)
    requires DbOk(db) && r < |db.runs|
    ensures SettleAs(db, r, state).Ok? <==> (Dead(state) ==> CanSettle(db, r))
  {
    SettlesAs(db, r, state);
    assert RunOk(db, r);
  }

  // In every run: _reconcile_terminal raises exactly when the job was read dead and the
  // attempt's current version is neither the run's own, pending or running, nor a loss of
  // the same stage. If it does not raise, then from then on the run's stage is over: it is
  // never again the current pending or running one.
  lemma SettlingRaisesIff(steps: seq<Step>, session: nat, more: seq<Step>)
    requires session in After(EMPTY, steps).held
    ensures var s := After(EMPTY, steps);
      var h := s.held[session];
      h.run < |s.db.runs|
      && (SettleAs(s.db, h.run, h.job.state).Err? <==> Dead(h.job.state) && !CanSettle(s.db, h.run))
      && (Dead(h.job.state) && SettleAs(s.db, h.run, h.job.state).Ok? ==>
            var t := After(Next(s, Settle(session)), more).db; h.run < |t.runs| && !Current(t, h.run))
  {
    ReachableDb(steps);
    var s := After(EMPTY, steps);
    var h := s.held[session];
    assert HeldOk(s.db, h);
    SettlesIff(s.db, h.run, h.job.state);
    if Dead(h.job.state) && SettleAs(s.db, h.run, h.job.state).Ok? {
      SettledStays(s, session, h, more);
    }
  }

  lemma SettledStays(s: State, session: nat, h: Held, more: seq<Step>)
    requires Inv(s) && session in s.held && s.held[session] == h && HeldOk(s.db, h)
    requires Dead(h.job.state) && SettleAs(s.db, h.run, h.job.state).Ok?
    ensures var t := After(Next(s, Settle(session)), more).db; h.run < |t.runs| && !Current(t, h.run)
  {
    var next := Next(s, Settle(session));
    StepKeeps(s, Settle(session));
    Reachable(next, more);
    SettledIsOver(s.db, h.run, h.job.state);
    OverStays(next.db, After(next, more).db, h.run);
  }

  lemma SettledIsOver(db: Db, r: nat, state: JobState)
    requires DbOk(db) && r < |db.runs| && Dead(state) && SettleAs(db, r, state).Ok?
    ensures SettleAs(db, r, state).value.runs == db.runs && !Current(SettleAs(db, r, state).value, r)
  {
    SettlesAs(db, r, state);
    assert RunOk(db, r);
  }

  lemma OverStays(db: Db, next: Db, r: nat)
    requires DbOk(db) && r < |db.runs| && !Current(db, r) && RunsGo(db.runs, next.runs) && VersionsGo(db.attempts, next.attempts)
    ensures !Current(next, r)
  {
    assert RunOk(db, r) && RunGoes(db.runs[r], next.runs[r]);
    var v := db.attempts[db.runs[r].attempt];
    assert HistoryOk(v) && v <= next.attempts[db.runs[r].attempt];
  }

  // ---------- Reconciliation with nothing between ----------

  // The current stage of attempt a is running: then a run whose pending version it
  // follows has a running job.
  predicate RunningServed(db: Db, a: nat)
    requires a < |db.attempts| && db.attempts[a] != []
  {
    Last(db.attempts[a]).status == Started ==>
      exists r | 0 <= r < |db.runs| ::
        db.runs[r].attempt == a && db.runs[r].pending + 2 == |db.attempts[a]| && db.runs[r].job.state == Running
  }

  // Settling run r: an attempt is left alone, or its stage is lost from then on; every
  // run that could be settled still can, and of the runs after r no other.
  lemma ReconcileOneKeeps(db: Db, r: nat) returns (next: Db)
    requires DbOk(db) && r < |db.runs| && (Dead(db.runs[r].job.state) ==> CanSettle(db, r))
    ensures ReconcileOne(db, r) == Ok(next) && DbOk(next) && next.runs == db.runs && !Stranded(next, r)
    ensures |next.attempts| == |db.attempts|
    ensures forall a | 0 <= a < |db.attempts| :: LeftOrLost(db, next, a)
    ensures forall s | 0 <= s < |db.runs| :: (CanSettle(db, s) ==> CanSettle(next, s)) && (Stranded(next, s) ==> Stranded(db, s))
    ensures forall s | r < s < |db.runs| :: CanSettle(next, s) ==> CanSettle(db, s)
  {
    var state := db.runs[r].job.state;
    SettlesAs(db, r, state);
    SettlesIff(db, r, state);
    next := SettleAs(db, r, state).value;
    assert RunOk(db, r);
    if Dead(state) {
      SettledIsOver(db, r, state);
      StrandedIsCurrent(next, r);
    }
    forall s | 0 <= s < |db.runs|
      ensures (CanSettle(db, s) ==> CanSettle(next, s)) && (Stranded(next, s) ==> Stranded(db, s)) && (r < s ==> CanSettle(next, s) ==> CanSettle(db, s))
    {
      if next != db {
        OthersSettle(db, next, r, s);
      }
    }
  }

  predicate LeftOrLost(db: Db, next: Db, a: nat)
    requires a < |db.attempts| && a < |next.attempts|
  {
    next.attempts[a] == db.attempts[a] || (next.attempts[a] != [] && Lost(Last(next.attempts[a]).status))
  }

  lemma OthersSettle(db: Db, next: Db, r: nat, s: nat)
    requires DbOk(db) && r < |db.runs| && s < |db.runs| && next.runs == db.runs && Current(db, r)
    requires |next.attempts| == |db.attempts| && next.attempts == db.attempts[db.runs[r].attempt := next.attempts[db.runs[r].attempt]]
    requires LostHere(next, r)
    ensures (CanSettle(db, s) ==> CanSettle(next, s)) && (Stranded(next, s) ==> Stranded(db, s)) && (r < s ==> CanSettle(next, s) ==> CanSettle(db, s))
  {
    assert RunOk(db, s) && RunOk(db, r);
    if db.runs[s].attempt == db.runs[r].attempt {
      assert HistoryOk(db.attempts[db.runs[r].attempt]);
      if Current(db, s) {
        OneOwner(db, r, s);
      } else if r < s {
        var _ := Apart(db.runs, r, s);
        assert false;
      }
    }
  }

  // What the query of reconcile_expired selects are the dead owners.
  lemma StrandedIsCurrent(db: Db, r: nat)
    requires DbOk(db) && r < |db.runs|
    ensures Stranded(db, r) <==> Dead(db.runs[r].job.state) && Current(db, r)
  {
    assert RunOk(db, r);
    var v := db.attempts[db.runs[r].attempt];
    assert HistoryOk(v);
    if db.runs[r].pending + 2 == |v| {
      assert EdgeOk(v[(|v| - 1) - 1], v[|v| - 1]);
    }
  }

  predicate AllSettle(db: Db, list: seq<nat>) {
    forall i | 0 <= i < |list| :: list[i] < |db.runs| && CanSettle(db, list[i])
  }

  lemma {:induction false} ReconcileListKeeps(db: Db, list: seq<nat>) returns (next: Db)
    requires DbOk(db) && AllSettle(db, list)
    ensures ReconcileList(db, list) == Ok(next) && DbOk(next) && next.runs == db.runs && |next.attempts| == |db.attempts|
    ensures forall a | 0 <= a < |db.attempts| :: LeftOrLost(db, next, a)
    ensures forall s | 0 <= s < |db.runs| && Stranded(next, s) :: Stranded(db, s) && s !in list
    decreases |list|
  {
    if list == [] {
      next := db;
    } else {
      assert list[0] < |db.runs|;
      var mid := ReconcileOneKeeps(db, list[0]);
      forall i | 0 <= i < |list[1..]| ensures list[1..][i] < |mid.runs| && CanSettle(mid, list[1..][i]) {
        assert CanSettle(db, list[i + 1]);
      }
      next := ReconcileListKeeps(mid, list[1..]);
      forall s | 0 <= s < |db.runs| && Stranded(next, s) ensures Stranded(db, s) && s !in list {
        assert Stranded(mid, s) && s !in list[1..];
        InTail(list, s);
      }
      forall a | 0 <= a < |db.attempts| ensures LeftOrLost(db, next, a) {
        assert LeftOrLost(db, mid, a) && LeftOrLost(mid, next, a);
      }
    }
  }

  lemma InTail(list: seq<nat>, s: nat)
    requires list != [] && s !in list[1..]
    ensures s in list <==> s == list[0]
  {
    assert list == [list[0]] + list[1..];
  }

  // One dead run of the list that cannot be settled, after none but earlier runs.
  lemma {:induction false} ReconcileListRaises(db: Db, list: seq<nat>, k: nat)
    requires DbOk(db) && k < |list| && list[k] < |db.runs| && Dead(db.runs[list[k]].job.state) && !CanSettle(db, list[k])
    requires forall i | 0 <= i < k :: list[i] < list[k]
    ensures ReconcileList(db, list).Err?
    decreases k
  {
    SettlesIff(db, list[0], db.runs[list[0]].job.state);
    if k > 0 && ReconcileOne(db, list[0]).Ok? {
      var mid := ReconcileOneKeeps(db, list[0]);
      assert list[1..][k - 1] == list[k];
      forall i | 0 <= i < k - 1 ensures list[1..][i] < list[1..][k - 1] {
        assert list[1..][i] == list[i + 1];
      }
      ReconcileListRaises(mid, list[1..], k - 1);
    }
  }

  predicate Ascends(list: seq<nat>) {
    forall i, k | 0 <= i < k < |list| :: list[i] < list[k]
  }

  lemma {:induction false} ExpiredInOrder(db: Db, now: int, n: nat)
    requires n <= |db.runs|
    ensures Ascends(ExpiredRuns(db, now, n))
  {
    if n > 0 {
      ExpiredInOrder(db, now, n - 1);
      var list := ExpiredRuns(db, now, n - 1);
      forall i | 0 <= i < |list| ensures list[i] < n - 1 {
        assert list[i] in list;
      }
      AscendsOn(list, n - 1);
      assert list + [] == list;
    }
  }

  lemma AscendsOn(list: seq<nat>, last: nat)
    requires Ascends(list) && forall i | 0 <= i < |list| :: list[i] < last
    ensures Ascends(list + [last])
  {
  }

  lemma RowsHeld(db: Db, now: int)
    requires DbOk(db)
    ensures var rows := ExpiredRows(db, now, |db.runs|); forall i | 0 <= i < |rows| :: HeldOk(db, rows[i])
  {
    var rows := ExpiredRows(db, now, |db.runs|);
    forall i | 0 <= i < |rows| ensures HeldOk(db, rows[i]) {
      assert RunOk(db, rows[i].run);
    }
  }

  lemma RecoveredKeeps(db: Db, now: int)
    requires DbOk(db)
    ensures DbOk(Recovered(db, now))
    ensures forall r | 0 <= r < |db.runs| && Expired(db.runs[r].job, now) :: Dead(Recovered(db, now).runs[r].job.state)
  {
    AloneRows(db, now);
    RowsHeld(db, now);
    WrittenBackKeeps(db, ExpiredRows(db, now, |db.runs|), now);
    forall r | 0 <= r < |db.runs| && Expired(db.runs[r].job, now) ensures Dead(Recovered(db, now).runs[r].job.state) {
      ExpiredDies(db, now, r);
    }
  }

  lemma ExpiredDies(db: Db, now: int, r: nat)
    requires DbOk(db) && r < |db.runs| && Expired(db.runs[r].job, now)
    ensures Dead(RecoveredRun(db.runs[r], now).job.state)
  {
    assert RunOk(db, r);
  }

  lemma RecoveredSame(db: Db, now: int)
    ensures forall r | 0 <= r < |db.runs| :: CanSettle(Recovered(db, now), r) <==> CanSettle(db, r)
  {
  }

  // Rows as they were read, written back at any later time.
  lemma {:induction false} WrittenBackKeeps(db: Db, rows: seq<Held>, now: int)
    requires DbOk(db) && RowsOf(db, rows)
    requires forall i | 0 <= i < |rows| :: HeldOk(db, rows[i])
    ensures DbOk(WrittenBack(db, rows, now)) && WrittenBack(db, rows, now).attempts == db.attempts
    decreases |rows|
  {
    if rows != [] {
      assert HeldOk(db, rows[0]);
      var mid := WriteExpired(db, rows[0], now);
      RowWritten(db, rows[0], Expire(0, now));
      forall i | 0 <= i < |rows[1..]| ensures HeldOk(mid, rows[1..][i]) {
        assert HeldOk(db, rows[i + 1]);
      }
      WrittenBackKeeps(mid, rows[1..], now);
    }
  }

  lemma ReconcileResult(db: Db, now: int)
    requires DbOk(db) && forall r | 0 <= r < |db.runs| && Expired(db.runs[r].job, now) :: CanSettle(db, r)
    ensures Reconcile(db, now).Ok?
    ensures var next := Reconcile(db, now).value;
      DbOk(next) && next.runs == Recovered(db, now).runs && |next.attempts| == |db.attempts|
      && (forall a | 0 <= a < |db.attempts| :: LeftOrLost(db, next, a))
      && (forall r | 0 <= r < |next.runs| :: !Stranded(next, r))
  {
    RecoveredKeeps(db, now);
    RecoveredSame(db, now);
    var mid := Recovered(db, now);
    var expired := ExpiredRuns(db, now, |db.runs|);
    var stranded := StrandedRuns(mid, expired, |db.runs|);
    var list := ToReconcile(db, now);
    forall i | 0 <= i < |list| ensures list[i] < |mid.runs| && CanSettle(mid, list[i]) {
      if i < |expired| {
        assert list[i] in expired;
      } else {
        assert list[i] in stranded;
        StrandedIsCurrent(mid, list[i]);
      }
    }
    var next := ReconcileListKeeps(mid, list);
    forall a | 0 <= a < |db.attempts| ensures LeftOrLost(db, next, a) {
      assert LeftOrLost(mid, next, a);
    }
    forall r | 0 <= r < |next.runs| ensures !Stranded(next, r) {
      assert r in list <==> r in expired || r in stranded;
    }
  }

  lemma ReconcileRaises(db: Db, now: int, r: nat)
    requires DbOk(db) && r < |db.runs| && Expired(db.runs[r].job, now) && !CanSettle(db, r)
    ensures Reconcile(db, now).Err?
  {
    RecoveredKeeps(db, now);
    RecoveredSame(db, now);
    ExpiredInOrder(db, now, |db.runs|);
    var expired := ExpiredRuns(db, now, |db.runs|);
    assert r in expired;
    var k :| 0 <= k < |expired| && expired[k] == r;
    var list := ToReconcile(db, now);
    forall i | 0 <= i < k ensures list[i] < list[k] {
      assert expired[i] < expired[k] && list[i] == expired[i] && list[k] == expired[k];
    }
    ReconcileListRaises(Recovered(db, now), list, k);
  }

  // From any reachable state, reconcile_expired with nothing written between its steps
  // succeeds exactly if each run whose lease is over has the current stage or has lost it;
  // and after it no dead job has a current pending or running stage.
  lemma ReconcileAloneIff(steps: seq<Step>, now: int)
    ensures var db := After(EMPTY, steps).db;
      var r := Reconcile(db, now);
      (r.Ok? <==> forall s | 0 <= s < |db.runs| && Expired(db.runs[s].job, now) :: CanSettle(db, s))
      && (r.Ok? ==> forall s | 0 <= s < |r.value.runs| && Dead(r.value.runs[s].job.state) :: !Current(r.value, s))
  {
    ReachableDb(steps);
    var db := After(EMPTY, steps).db;
    if s: nat :| s < |db.runs| && Expired(db.runs[s].job, now) && !CanSettle(db, s) {
      ReconcileRaises(db, now, s);
    } else {
      ReconcileResult(db, now);
      var next := Reconcile(db, now).value;
      forall s | 0 <= s < |next.runs| && Dead(next.runs[s].job.state) ensures !Current(next, s) {
        StrandedIsCurrent(next, s);
      }
    }
  }

  // If no write has taken a job and its stage apart, it always succeeds, whichever reaper
  // ended a lease before, and after it every running stage has its running job.
  lemma ReconcileLeavesNoStrandedStage(steps: seq<Step>, now: int)
    requires forall r: nat :: NeverSpoiled(EMPTY, steps, r)
    ensures var r := Reconcile(After(EMPTY, steps).db, now);
      r.Ok? && (forall s | 0 <= s < |r.value.runs| && Dead(r.value.runs[s].job.state) :: !Current(r.value, s))
      && (forall a | 0 <= a < |r.value.attempts| :: r.value.attempts[a] != [] && RunningServed(r.value, a))
  {
    ReachableDb(steps);
    var db := After(EMPTY, steps).db;
    forall s | 0 <= s < |db.runs| && Expired(db.runs[s].job, now) ensures CanSettle(db, s) {
      UnspoiledCoupled(steps, s);
      CoupledSettles(db, s);
    }
    ReconcileAloneIff(steps, now);
    ReconcileResult(db, now);
    var next := Reconcile(db, now).value;
    forall a | 0 <= a < |next.attempts| ensures next.attempts[a] != [] && RunningServed(next, a) {
      assert HistoryOk(next.attempts[a]) && LeftOrLost(db, next, a);
      if Last(next.attempts[a]).status == Started {
        var r := StarterOf(db, a);
        UnspoiledCoupled(steps, r);
        StillServed(db, next, now, r);
      }
    }
  }

  lemma StillServed(db: Db, next: Db, now: int, r: nat)
    requires DbOk(db) && Coupled(db, r) && next.runs == Recovered(db, now).runs && |next.attempts| == |db.attempts| && !Stranded(next, r)
    requires var v := db.attempts[db.runs[r].attempt]; |v| == db.runs[r].pending + 2 && Last(v).status == Started
    requires next.attempts[db.runs[r].attempt] == db.attempts[db.runs[r].attempt]
    ensures next.runs[r].attempt == db.runs[r].attempt && next.runs[r].pending == db.runs[r].pending && next.runs[r].job.state == Running
  {
    assert RunOk(db, r);
  }

  lemma CoupledSettles(db: Db, r: nat)
    requires DbOk(db) && Coupled(db, r) && UnderWay(db.runs[r].job.state)
    ensures CanSettle(db, r)
  {
    assert RunOk(db, r);
    var v := db.attempts[db.runs[r].attempt];
    assert HistoryOk(v);
    AtTheEnd(v, db.runs[r]);
  }

  // The run that started the current stage.
  lemma StarterOf(db: Db, a: nat) returns (r: nat)
    requires DbOk(db) && a < |db.attempts| && db.attempts[a] != [] && Last(db.attempts[a]).status == Started
    ensures r < |db.runs| && db.runs[r].attempt == a && db.runs[r].pending + 2 == |db.attempts[a]|
  {
    var i := |db.attempts[a]| - 1;
    assert StartedBy(db, a, i);
    r :| 0 <= r < |db.runs| && db.runs[r].attempt == a && db.runs[r].pending == i - 1;
  }

  // ---------- Completion ----------

  // A run whose job has ended, with its attempt's current version as given.
  predicate EndedWith(db: Db, r: nat, target: Status, reason: string, result: Option<nat>) {
    r < |db.runs| && Verified(db, r) && Terminal(db.runs[r].job.state) && Final(target) &&
    var v := db.attempts[db.runs[r].attempt];
    Last(v).stage == db.runs[r].stage && Last(v).status == target && Last(v).reason == reason && Last(v).result == result
  }

  lemma ReplayAccepted(db: Db, r: nat, w: nat, target: Status, reason: string, result: Option<nat>, now: int)
    requires EndedWith(db, r, target, reason, result)
    ensures Complete(db, r, w, target, reason, result, true, now) == Ok((db, |db.attempts[db.runs[r].attempt]| - 1))
  {
  }

  lemma OtherRefused(db: Db, r: nat, w: nat, target: Status, reason: string, result: Option<nat>, other: Status, why: string, res: Option<nat>, ok: bool, now: int)
    requires EndedWith(db, r, target, reason, result) && (other, why, res) != (target, reason, result)
    ensures Complete(db, r, w, other, why, res, ok, now).Err?
  {
  }

  // The first acceptance: the stage ends as asked, and only the run's own job and
  // attempt move. Whoever repeats it gets the same version and changes nothing; any
  // other outcome is refused.
  lemma CompleteOnce(steps: seq<Step>, r: nat, w: nat, target: Status, reason: string, result: Option<nat>, bundleOk: bool, now: int)
    requires var db := After(EMPTY, steps).db;
      Complete(db, r, w, target, reason, result, bundleOk, now).Ok? && r < |db.runs| && !Terminal(db.runs[r].job.state)
    ensures var db := After(EMPTY, steps).db;
      var (next, place) := Complete(db, r, w, target, reason, result, bundleOk, now).value;
      && next.runs == db.runs[r := next.runs[r]] && next.runs[r].job.state == JobEnd(target)
      && (forall v, later :: Complete(next, r, v, target, reason, result, true, later) == Ok((next, place)))
      && (forall v, other, why, res, ok, later :: (other, why, res) != (target, reason, result)
            ==> Complete(next, r, v, other, why, res, ok, later).Err?)
  {
    ReachableDb(steps);
    var db := After(EMPTY, steps).db;
    CompletedState(db, r, w, target, reason, result, bundleOk, now);
    var (next, place) := Complete(db, r, w, target, reason, result, bundleOk, now).value;
    AllVerified(next, r);
    assert EndedWith(next, r, target, reason, result);
    forall v: nat, later: int ensures Complete(next, r, v, target, reason, result, true, later) == Ok((next, place)) {
      ReplayAccepted(next, r, v, target, reason, result, later);
    }
    forall v: nat, other: Status, why: string, res: Option<nat>, ok: bool, later: int | (other, why, res) != (target, reason, result)
      ensures Complete(next, r, v, other, why, res, ok, later).Err?
    {
      OtherRefused(next, r, v, target, reason, result, other, why, res, ok, later);
    }
  }

  lemma CompletedState(db: Db, r: nat, w: nat, target: Status, reason: string, result: Option<nat>, bundleOk: bool, now: int)
    requires DbOk(db) && r < |db.runs| && !Terminal(db.runs[r].job.state)
    requires Complete(db, r, w, target, reason, result, bundleOk, now).Ok?
    ensures var (next, place) := Complete(db, r, w, target, reason, result, bundleOk, now).value;
      var run := db.runs[r];
      DbOk(next) && next.runs == db.runs[r := next.runs[r]] && next.runs[r] == run.(job := next.runs[r].job)
      && next.runs[r].job.state == JobEnd(target)
      && run.attempt < |next.attempts| && |next.attempts[run.attempt]| == place + 1
      && Last(next.attempts[run.attempt]).stage == run.stage && Last(next.attempts[run.attempt]).status == target
      && Last(next.attempts[run.attempt]).reason == reason && Last(next.attempts[run.attempt]).result == result
  {
    var run := db.runs[r];
    assert RunOk(db, r) && HistoryOk(db.attempts[run.attempt]);
    FinishKeeps(db, r, Ended(run.job, JobEnd(target)), target, reason, result, RunKey(r, target));
  }

  // The version that ended run r's stage, if the attempt has not ended otherwise.
  predicate IsOwnOutcome(db: Db, r: nat, place: nat)
    requires r < |db.runs|
  {
    db.runs[r].pending < place <= db.runs[r].pending + 2
  }

  // A repeated completion compares with the attempt's current version, whatever run that
  // belongs to. It speaks of the run's own outcome exactly when the run is the last of
  // its stage.
  lemma ReplaySpeaksOfLastRun(steps: seq<Step>, r: nat, w: nat, target: Status, reason: string, result: Option<nat>, bundleOk: bool, now: int)
    requires var db := After(EMPTY, steps).db;
      r < |db.runs| && Terminal(db.runs[r].job.state) && Complete(db, r, w, target, reason, result, bundleOk, now).Ok?
    ensures var db := After(EMPTY, steps).db;
      var (next, place) := Complete(db, r, w, target, reason, result, bundleOk, now).value;
      next == db && (IsOwnOutcome(db, r, place) <==> LastRun(db.runs, db.runs[r].attempt, db.runs[r].stage, |db.runs|) == Some(r))
  {
    ReachableDb(steps);
    var db := After(EMPTY, steps).db;
    var a := db.runs[r].attempt;
    assert RunOk(db, r);
    var q := OutcomeMaker(db, a);
    OutcomeOfLast(db, a, q);
    if q != r {
      assert Apart(db.runs, r, q);
      assert RunOk(db, q);
    }
  }

  // The run whose outcome a final version is.
  lemma OutcomeMaker(db: Db, a: nat) returns (q: nat)
    requires DbOk(db) && a < |db.attempts| && db.attempts[a] != [] && Final(Last(db.attempts[a]).status)
    ensures q < |db.runs| && db.runs[q].attempt == a && IsOwnOutcome(db, q, |db.attempts[a]| - 1)
    ensures db.runs[q].stage == Last(db.attempts[a]).stage
  {
    var v := db.attempts[a];
    var i := |v| - 1;
    assert KeyOk(db, a, i) && HistoryOk(v);
    q := match v[i].key case RunKey(k, _) => k case ReconcileKey(k, _) => k case CallerKey(_) => 0;
    assert RunOk(db, q);
    assert EdgeOk(v[i - 1], v[i]);
    if i == db.runs[q].pending + 2 {
      assert EdgeOk(v[(i - 1) - 1], v[i - 1]);
    }
  }

  lemma OutcomeOfLast(db: Db, a: nat, q: nat)
    requires DbOk(db) && a < |db.attempts| && db.attempts[a] != [] && Final(Last(db.attempts[a]).status)
    requires q < |db.runs| && db.runs[q].attempt == a && IsOwnOutcome(db, q, |db.attempts[a]| - 1)
    ensures forall s | 0 <= s < |db.runs| && db.runs[s].attempt == a && s != q :: s < q && db.runs[s].pending + 2 < |db.attempts[a]| - 1
    ensures LastRun(db.runs, a, db.runs[q].stage, |db.runs|) == Some(q)
  {
    var v := db.attempts[a];
    assert RunOk(db, q) && HistoryOk(v);
    forall s | 0 <= s < |db.runs| && db.runs[s].attempt == a && s != q
      ensures s < q && db.runs[s].pending + 2 < |v| - 1
    {
      assert RunOk(db, s) && Apart(db.runs, s, q);
      PendingApart(db, s, q);
    }
    assert SameStage(db.runs[q], a, db.runs[q].stage);
  }

  // Between two runs of an attempt lies the first one's outcome.
  lemma PendingApart(db: Db, s: nat, q: nat)
    requires DbOk(db) && s < |db.runs| && q < |db.runs| && s != q && db.runs[s].attempt == db.runs[q].attempt
    ensures if s < q then db.runs[s].pending + 2 <= db.runs[q].pending else db.runs[q].pending + 2 <= db.runs[s].pending
  {
    assert RunOk(db, s) && RunOk(db, q) && Apart(db.runs, s, q);
    var v := db.attempts[db.runs[q].attempt];
    assert HistoryOk(v);
    var lo := if s < q then db.runs[s].pending else db.runs[q].pending;
    assert EdgeOk(v[(lo + 1) - 1], v[lo + 1]);
  }

  // ---------- Numbering and budget ----------

  // The runs of one stage are numbered 1, 2, ... in order, within one budget of at most
  // three; and every one but the last has a failed or timed-out job, unless a session has
  // come to overturn that.
  lemma RunsAreNumbered(steps: seq<Step>, r: nat, s: nat)
    requires var db := After(EMPTY, steps).db;
      r < |db.runs| && s < |db.runs| && SameStage(db.runs[s], db.runs[r].attempt, db.runs[r].stage)
    ensures var db := After(EMPTY, steps).db;
      && 1 <= db.runs[r].number <= db.runs[r].max <= MAX_STAGE_RUNS && db.runs[r].max == db.runs[s].max
      && (r < s ==> db.runs[r].number < db.runs[s].number)
      && (r < s && NeverReversed(EMPTY, steps, r) ==> Retryable(db.runs[r]))
      && (db.runs[r].number == db.runs[s].number ==> r == s)
      && forall k | 1 <= k <= db.runs[r].number :: HasNumber(db.runs, db.runs[r].attempt, db.runs[r].stage, k, db.runs[r].max)
  {
    ReachableDb(steps);
    var db := After(EMPTY, steps).db;
    AllVerified(db, r);
    if r < s {
      Ascending(db.runs, r, s);
      if NeverReversed(EMPTY, steps, r) {
        Superseded(EMPTY, steps, r);
      }
    } else if s < r {
      Ascending(db.runs, s, r);
    }
  }

  lemma {:induction false} Ascending(runs: seq<Run>, r: nat, s: nat)
    requires forall k | 0 <= k < |runs| :: NumberOk(runs, k)
    requires r < s < |runs| && SameStage(runs[s], runs[r].attempt, runs[r].stage)
    ensures runs[r].number < runs[s].number && runs[r].max == runs[s].max
    decreases s
  {
    assert NumberOk(runs, s);
    var prior := LastRun(runs, runs[s].attempt, runs[s].stage, s);
    assert SameStage(runs[r], runs[s].attempt, runs[s].stage);
    if prior.value != r {
      Ascending(runs, r, prior.value);
    }
  }

  predicate Retryable(run: Run) {
    run.job.state == Failed || run.job.state == TimedOut
  }

  // If a later run of its stage was scheduled, the run had failed or timed out.
  predicate PriorOk(runs: seq<Run>, r: nat) {
    forall k | r < k < |runs| && SameStage(runs[k], runs[r].attempt, runs[r].stage) :: Retryable(runs[r])
  }

  lemma PriorScheduled(db: Db, step: Step, r: nat)
    requires step.DoSchedule? && PriorOk(db.runs, r)
    ensures PriorOk(NextDb(db, step).runs, r)
  {
    var next := NextDb(db, step);
    if next != db && r < |db.runs| {
      var run := next.runs[|db.runs|];
      var prior := LastRun(db.runs, run.attempt, run.stage, |db.runs|);
      assert SameStage(run, db.runs[r].attempt, db.runs[r].stage) ==> SameStage(db.runs[r], run.attempt, run.stage);
    }
  }

  lemma PriorKept(runs: seq<Run>, more: seq<Run>, r: nat)
    requires |more| == |runs| && RunsGo(runs, more) && PriorOk(runs, r)
    requires r < |runs| && Retryable(runs[r]) ==> Retryable(more[r])
    ensures PriorOk(more, r)
  {
    forall k | r < k < |more| && SameStage(more[k], more[r].attempt, more[r].stage) ensures Retryable(more[r]) {
      assert RunGoes(runs[k], more[k]) && RunGoes(runs[r], more[r]);
      assert SameStage(runs[k], runs[r].attempt, runs[r].stage);
    }
  }

  lemma PriorStep(s: State, step: Step, r: nat)
    requires Inv(s) && PriorOk(s.db.runs, r) && !Reverses(s, step, r)
    ensures PriorOk(Next(s, step).db.runs, r)
  {
    StepGoes(s, step);
    if step.DoSchedule? {
      PriorScheduled(s.db, step, r);
    } else {
      if OfSession(step) && step.session in s.held {
        WritesAddNoRun(s.db, s.held[step.session], step);
      } else if !OfSession(step) {
        OthersAddNoRun(s.db, step);
      }
      if r < |s.db.runs| {
        assert RunOk(s.db, r);
        StepStands(s, step, r);
      }
      PriorKept(s.db.runs, Next(s, step).db.runs, r);
    }
  }

  lemma {:induction false} Superseded(s: State, steps: seq<Step>, r: nat)
    requires Inv(s) && PriorOk(s.db.runs, r) && NeverReversed(s, steps, r)
    ensures PriorOk(After(s, steps).db.runs, r)
    decreases |steps|
  {
    if steps != [] {
      PriorStep(s, steps[0], r);
      StepKeeps(s, steps[0]);
      Superseded(Next(s, steps[0]), steps[1..], r);
    }
  }

  // ---------- Retries ----------

  // A pending stage that no run was scheduled for, whose budget is spent.
  predicate Stuck(db: Db, a: nat) {
    a < |db.attempts| && db.attempts[a] != [] && Last(db.attempts[a]).status == Pending
    && !PendingTaken(db.runs, a, |db.attempts[a]| - 1)
    && Spent(db.runs, LastRun(db.runs, a, Last(db.attempts[a]).stage, |db.runs|))
  }

  predicate Spent(runs: seq<Run>, last: Option<nat>) {
    last.Some? && last.value < |runs| && runs[last.value].number == runs[last.value].max
  }

  // prepare_retry looks at the budget of the run it is given. What it appends can be
  // scheduled exactly when the last run of the stage is within its own and its job is
  // failed or timed out, as it is unless a write took it and its stage apart.
  lemma RetryCanBeScheduledIff(steps: seq<Step>, r: nat, retryKey: string, spec: nat, key: string)
    requires var db := After(EMPTY, steps).db;
      PrepareRetry(db, r, retryKey).Ok? && PrepareRetry(db, r, retryKey).value != db && FindKey(db.runs, key, 0).None?
    ensures var db := After(EMPTY, steps).db;
      var a := db.runs[r].attempt;
      var next := PrepareRetry(db, r, retryKey).value;
      var last := LastRun(db.runs, a, db.runs[r].stage, |db.runs|);
      && last.Some?
      && (Schedule(next, a, spec, true, key, db.runs[r].max).Ok? <==> !Spent(db.runs, last) && Retryable(db.runs[last.value]))
      && (NeverSpoiled(EMPTY, steps, last.value) ==> Retryable(db.runs[last.value]))
      && (Stuck(next, a) <==> Spent(db.runs, last)) && (Spent(db.runs, last) ==> last.value > r)
  {
    ReachableDb(steps);
    var db := After(EMPTY, steps).db;
    var a := db.runs[r].attempt;
    var next := PrepareRetry(db, r, retryKey).value;
    RetryKeeps(db, a, retryKey, false);
    var q := OutcomeMaker(db, a);
    OutcomeOfLast(db, a, q);
    assert RunOk(db, q) && NumberOk(db.runs, q);
    AllVerified(next, q);
    assert !PendingTaken(db.runs, a, |db.attempts[a]|) by {
      forall s | 0 <= s < |db.runs| && db.runs[s].attempt == a ensures db.runs[s].pending != |db.attempts[a]| {
        assert RunOk(db, s);
      }
    }
    if NeverSpoiled(EMPTY, steps, q) {
      UnspoiledCoupled(steps, q);
      RetriedJob(db, a, q);
    }
    RunsAreNumbered(steps, q, r);
  }

  // The last run of a stage that failed or timed out has a failed or timed-out job.
  lemma RetriedJob(db: Db, a: nat, q: nat)
    requires DbOk(db) && Coupled(db, q) && a < |db.attempts| && db.attempts[a] != [] && db.runs[q].attempt == a
    requires Last(db.attempts[a]).status == Broken || Last(db.attempts[a]).status == Late
    requires IsOwnOutcome(db, q, |db.attempts[a]| - 1)
    ensures Retryable(db.runs[q])
  {
    var v := db.attempts[a];
    assert RunOk(db, q) && HistoryOk(v);
    assert EdgeOk(v[(|v| - 1) - 1], v[|v| - 1]);
  }

  // ---------- A stuck stage stays stuck ----------

  // The attempt and its runs are as they were, but for the jobs.
  predicate Untouched(db: Db, next: Db, a: nat) {
    a < |db.attempts| && a < |next.attempts| && next.attempts[a] == db.attempts[a] && |db.runs| <= |next.runs|
    && (forall r | 0 <= r < |db.runs| :: next.runs[r] == db.runs[r].(job := next.runs[r].job))
    && (forall r | |db.runs| <= r < |next.runs| :: next.runs[r].attempt != a)
  }

  lemma StuckKept(db: Db, next: Db, a: nat)
    requires Stuck(db, a) && Untouched(db, next, a)
    ensures Stuck(next, a)
  {
    var stage := Last(db.attempts[a]).stage;
    LastRunSame(db.runs, next.runs, a, stage, |db.runs|);
    LastRunBeyond(next.runs, a, stage, |db.runs|, |next.runs|);
    forall r | 0 <= r < |next.runs| && next.runs[r].attempt == a ensures next.runs[r].pending != |db.attempts[a]| - 1 {
      assert db.runs[r].attempt == a;
    }
  }

  lemma {:induction false} LastRunBeyond(runs: seq<Run>, a: nat, stage: Stage, n: nat, m: nat)
    requires n <= m <= |runs| && forall r | n <= r < m :: runs[r].attempt != a
    ensures LastRun(runs, a, stage, m) == LastRun(runs, a, stage, n)
  {
    if n < m {
      LastRunBeyond(runs, a, stage, n, m - 1);
    }
  }

  // No run has the end of the attempt, which is pending.
  predicate Passed(db: Db, a: nat, r: nat) {
    a < |db.attempts| && db.attempts[a] != [] && Last(db.attempts[a]).status == Pending
    && (r < |db.runs| && db.runs[r].attempt == a ==> db.runs[r].pending < |db.attempts[a]| - 1)
  }

  lemma StuckPasses(db: Db, a: nat, r: nat)
    requires DbOk(db) && Stuck(db, a)
    ensures Passed(db, a, r)
  {
    if r < |db.runs| {
      assert RunOk(db, r);
    }
  }

  lemma SettleLeaves(db: Db, a: nat, r: nat, state: JobState)
    requires Passed(db, a, r)
    ensures Untouched(db, Kept(db, SettleAs(db, r, state)), a)
  {
  }

  lemma CancelLeaves(db: Db, a: nat, h: Held)
    requires Passed(db, a, h.run)
    ensures Untouched(db, Kept(db, RequestCancel(db, h.run, h.job)), a)
  {
    SettleLeaves(db, a, h.run, h.job.state);
  }

  lemma WritesLeave(db: Db, a: nat, h: Held, step: Step)
    requires Passed(db, a, h.run)
    ensures Untouched(db, Writes(db, h, step), a)
  {
    match step
    case CancelRun(_) => CancelLeaves(db, a, h);
    case Settle(_) => SettleLeaves(db, a, h.run, h.job.state);
    case _ =>
  }

  lemma CompleteLeaves(db: Db, a: nat, step: Step)
    requires step.DoComplete? && Passed(db, a, step.run)
    ensures Untouched(db, NextDb(db, step), a)
  {
  }

  lemma RunLeaves(db: Db, a: nat, step: Step)
    requires step.DoHeartbeat? || step.DoBegin? || step.DoRetry? || step.JobFail?
    requires Passed(db, a, step.run)
    ensures Untouched(db, NextDb(db, step), a)
  {
  }

  lemma ScheduleLeaves(db: Db, a: nat, step: Step)
    requires DbOk(db) && Stuck(db, a) && (step.DoSchedule? || step.DoAdvance? || step.DoRestore? || step.StartAttempt? || step.DoLease?)
    ensures Untouched(db, NextDb(db, step), a)
  {
  }

  lemma NextDbLeaves(db: Db, a: nat, step: Step)
    requires DbOk(db) && Stuck(db, a) && !OfSession(step) && !step.ReadRow?
    ensures Untouched(db, NextDb(db, step), a)
  {
    match step
    case DoComplete(r, _, _, _, _, _, _) => StuckPasses(db, a, r); CompleteLeaves(db, a, step);
    case DoHeartbeat(r, _, _, _) => StuckPasses(db, a, r); RunLeaves(db, a, step);
    case DoBegin(r, _, _, _, _) => StuckPasses(db, a, r); RunLeaves(db, a, step);
    case DoRetry(r, _) => StuckPasses(db, a, r); RunLeaves(db, a, step);
    case JobFail(r, _) => StuckPasses(db, a, r); RunLeaves(db, a, step);
    case _ => ScheduleLeaves(db, a, step);
  }

  lemma StuckStep(s: State, a: nat, step: Step)
    requires Inv(s) && Stuck(s.db, a)
    ensures Stuck(Next(s, step).db, a) && Next(s, step).db.attempts[a] == s.db.attempts[a]
  {
    if OfSession(step) {
      if step.session in s.held {
        StuckPasses(s.db, a, s.held[step.session].run);
        WritesLeave(s.db, a, s.held[step.session], step);
        StuckKept(s.db, Next(s, step).db, a);
      }
    } else if !step.ReadRow? {
      NextDbLeaves(s.db, a, step);
      StuckKept(s.db, Next(s, step).db, a);
    }
  }

  // A pending stage left without budget is never scheduled and never ends: no later
  // call changes its attempt.
  lemma {:induction false} StuckForever(s: State, a: nat, steps: seq<Step>)
    requires Inv(s) && Stuck(s.db, a)
    ensures Stuck(After(s, steps).db, a) && After(s, steps).db.attempts[a] == s.db.attempts[a]
    decreases |steps|
  {
    if steps != [] {
      StuckStep(s, a, steps[0]);
      StepKeeps(s, steps[0]);
      StuckForever(Next(s, steps[0]), a, steps[1..]);
    }
  }
}
