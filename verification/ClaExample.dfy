// One run of the signature protocol from beginning to end: a preview, the consent, the
// POST, its comment and the receipt. What ClaProtocol forbids, it does not forbid by
// forbidding everything.
module ClaExample {
  import opened Prelude
  import opened Jobs
  import opened ClaOutbox
  import opened ClaProtocol

  const WHO := Account("record", "login")
  const PR := Target("pr", "revision")
  const MINE: Key := ("pr", "login")

  // Worker 0 at a place of its loop, with the given journal, jobs and remote.
  function Place(journal: seq<Event>, jobs: seq<Job>, pc: Pc, issued: seq<nat>, network: set<Key>, comments: set<Key>): State {
    State(Db(journal, jobs, Some(PR), Some(WHO)), map[0 := pc], issued, network, comments, map[])
  }

  function Prepare(state: JobState): Job {
    Job(PrepareKind, "key", WHO, PR, 0, state, if state == Leased || state == Running then Some(0) else None, false, if state == Queued then 0 else 1, 1)
  }

  function Sign(state: JobState): Job {
    Job(WriteKind, "", WHO, PR, 1, state, if state == Leased || state == Running then Some(0) else None, false, if state == Queued then 0 else 1, 3)
  }

  const REQUESTED: seq<Event> := [OtherEvent]
  const PREVIEWED: seq<Event> := [OtherEvent, Prepared(PR, WHO, false, false), StatusObserved(0)]
  const AGREED: seq<Event> := PREVIEWED + [Confirmed(1, 1)]
  const BEGUN: seq<Event> := AGREED + [WriteStarted(3, 1)]
  const CLOSED: seq<Event> := BEGUN + [Submitted(3, 1)]

  const START := State(Db([], [], Some(PR), Some(WHO)), map[], [], {}, {}, map[])

  function Looking(look: Look): State {
    Place(REQUESTED, [Prepare(Running)], Observing(0, PR, WHO, look), [], {}, {})
  }

  function Signs(phase: Phase): State {
    Place(AGREED, [Prepare(Succeeded), Sign(Running)], Signing(1, 3, phase), [], {}, {})
  }

  lemma {:induction false} OneMore(s: State, steps: seq<Step>, step: Step)
    ensures Run(s, steps + [step]) == Next(Run(s, steps), step)
    decreases |steps|
  {
    if steps == [] {
      assert steps + [step] == [step] && [step][1..] == [];
    } else {
      assert (steps + [step])[1..] == steps[1..] + [step];
      OneMore(Next(s, steps[0]), steps[1..], step);
    }
  }

  // ---------- The preview ----------

  lemma RequestStep()
    ensures Next(START, Request(WHO, "key", false)).db == Db(REQUESTED, [Prepare(Queued)], Some(PR), Some(WHO))
    ensures Next(START, Request(WHO, "key", false)).pcs == map[]
  {
    assert [] + [OtherEvent] == REQUESTED;
    assert [] + [Prepare(Queued)] == [Prepare(Queued)];
  }

  lemma LookSteps(s: State)
    requires s.db == Db(REQUESTED, [Prepare(Queued)], Some(PR), Some(WHO)) && s.pcs == map[] && s.issued == [] && s.network == {} && s.comments == {} && s.held == map[]
    ensures var t := Next(s, Work(0, Lease(0)));
      var u := Next(t, Work(0, Start));
      var v := Next(u, Work(0, ReadTarget(true)));
      v == Looking(LookTargeted)
  {
    var t := Next(s, Work(0, Lease(0)));
    assert t == Place(REQUESTED, [Prepare(Leased)], Leasing(0), [], {}, {});
    var u := Next(t, Work(0, Start));
    assert u == Place(REQUESTED, [Prepare(Running)], Started(0), [], {}, {});
  }

  lemma ScanSteps()
    ensures Next(Next(Looking(LookTargeted), Work(0, BeginScan)), Work(0, EndScan(false))) == Looking(Looked(false))
  {
    assert Next(Looking(LookTargeted), Work(0, BeginScan)) == Looking(LookScanning(false));
  }

  lemma PreviewStep()
    ensures Next(Looking(Looked(false)), Work(0, Close(false, false))) == Place(PREVIEWED, [Prepare(Succeeded)], Idle, [], {}, {})
  {
    var s := Looking(Looked(false));
    assert REQUESTED + [Prepared(PR, WHO, false, false)] + [StatusObserved(0)] == PREVIEWED;
    assert s.db.jobs[0 := Prepare(Succeeded)] == [Prepare(Succeeded)];
  }

  // ---------- The consent ----------

  const YES := Consent(true, true, true, true)

  lemma LatestIsOne(n: nat)
    requires 2 <= n <= |CLOSED|
    ensures LatestPrepared(CLOSED, n) == Some(1)
  {
    assert CLOSED[1] == Prepared(PR, WHO, false, false);
    assert CLOSED[2] == StatusObserved(0) && CLOSED[3] == Confirmed(1, 1) && CLOSED[4] == WriteStarted(3, 1) && CLOSED[5] == Submitted(3, 1);
    if n > 2 {
      LatestIsOne(n - 1);
    }
  }

  lemma ConfirmStep()
    ensures Next(Place(PREVIEWED, [Prepare(Succeeded)], Idle, [], {}, {}), Confirm(1, YES))
         == Place(AGREED, [Prepare(Succeeded), Sign(Queued)], Idle, [], {}, {})
  {
    LatestIsOne(3);
    LatestStable(PREVIEWED, CLOSED, 3);
    assert !Unresolved(PREVIEWED) && !ConsentUsed(PREVIEWED, 1);
    assert !IsBusy([Prepare(Succeeded)]);
    assert [Prepare(Succeeded)] + [Sign(Queued)] == [Prepare(Succeeded), Sign(Queued)];
  }

  // ---------- The signature ----------

  lemma OpenSteps()
    ensures var s := Place(AGREED, [Prepare(Succeeded), Sign(Queued)], Idle, [], {}, {});
      Next(Next(Next(s, Work(0, Lease(1))), Work(0, Start)), Work(0, Open(true))) == Signs(Authorized)
  {
    var s := Place(AGREED, [Prepare(Succeeded), Sign(Queued)], Idle, [], {}, {});
    var t := Next(s, Work(0, Lease(1)));
    assert t == Place(AGREED, [Prepare(Succeeded), Sign(Leased)], Leasing(1), [], {}, {});
    var u := Next(t, Work(0, Start));
    assert u == Place(AGREED, [Prepare(Succeeded), Sign(Running)], Started(1), [], {}, {});
    ConsentOfJob();
    assert !SubmittedBefore(AGREED, 3, 4);
  }

  lemma ConsentOfJob()
    ensures AuthorizationOf(AGREED, 1, 0) == Some(3)
  {
    assert AGREED[0] == OtherEvent && AGREED[1].Prepared? && AGREED[2] == StatusObserved(0) && AGREED[3] == Confirmed(1, 1);
    assert AuthorizationOf(AGREED, 1, 3) == Some(3);
    assert AuthorizationOf(AGREED, 1, 2) == Some(3);
    assert AuthorizationOf(AGREED, 1, 1) == Some(3);
  }

  lemma TargetSteps()
    ensures Next(Next(Next(Signs(Authorized), Work(0, ReadTarget(true))), Work(0, BeginScan)), Work(0, EndScan(false))) == Signs(Unsigned)
  {
    assert Next(Signs(Authorized), Work(0, ReadTarget(true))) == Signs(Targeted);
    assert KeyOf(AGREED, 3) == MINE;
    assert Next(Signs(Targeted), Work(0, BeginScan)) == Signs(Scanning(false));
  }

  lemma NotStarted()
    ensures !StartedIn(AGREED, 3)
  {
  }

  lemma UnsentStep()
    ensures Next(Signs(Unsigned), Work(0, CheckUnsent)) == Signs(Unsent)
  {
    NotStarted();
  }

  lemma CheckSteps()
    ensures Next(Next(Next(Signs(Unsigned), Work(0, CheckUnsent)), Work(0, ReadAgreement(true))), Work(0, ReadTargetAgain(true))) == Signs(Ready)
  {
    UnsentStep();
    assert Next(Signs(Unsent), Work(0, ReadAgreement(true))) == Signs(Reread);
  }

  lemma WriteStep()
    ensures Next(Signs(Ready), Work(0, Write)) == Place(BEGUN, [Prepare(Succeeded), Sign(Running)], Signing(1, 3, Sending), [], {}, {})
  {
    LatestIsOne(4);
    LatestStable(AGREED, CLOSED, 4);
    NotStarted();
    assert AGREED[3] == Confirmed(1, 1) && AGREED[1] == Prepared(PR, WHO, false, false);
  }

  function Writes(phase: Phase, issued: seq<nat>, network: set<Key>, comments: set<Key>): State {
    Place(BEGUN, [Prepare(Succeeded), Sign(Running)], Signing(1, 3, phase), issued, network, comments)
  }

  lemma KeyOfConsent()
    ensures KeyOf(BEGUN, 3) == MINE
  {
    assert BEGUN[3] == Confirmed(1, 1) && BEGUN[1] == Prepared(PR, WHO, false, false);
  }

  lemma PostStep()
    ensures Next(Writes(Sending, [], {}, {}), Work(0, Post)) == Writes(Posted, [3], {MINE}, {})
  {
    KeyOfConsent();
  }

  lemma ArriveStep()
    ensures Next(Writes(Posted, [3], {MINE}, {}), Arrive(MINE)) == Writes(Posted, [3], {MINE}, {MINE})
  {
  }

  lemma ReplyStep()
    ensures Next(Writes(Posted, [3], {MINE}, {MINE}), Work(0, Reply)) == Writes(Signed, [3], {MINE}, {MINE})
  {
    KeyOfConsent();
  }

  lemma CloseStep()
    ensures Next(Place(BEGUN, [Prepare(Succeeded), Sign(Running)], Signing(1, 3, Signed), [3], {MINE}, {MINE}), Work(0, Close(true, false)))
         == Place(CLOSED, [Prepare(Succeeded), Sign(Succeeded)], Idle, [3], {MINE}, {MINE})
  {
    assert !SubmittedBefore(BEGUN, 3, 5);
    var s := Place(BEGUN, [Prepare(Succeeded), Sign(Running)], Signing(1, 3, Signed), [3], {MINE}, {MINE});
    assert s.db.jobs[1 := Sign(Succeeded)] == [Prepare(Succeeded), Sign(Succeeded)];
  }

  lemma ReachesLook() returns (steps: seq<Step>)
    ensures Run(START, steps) == Looking(Looked(false))
  {
    steps := [];
    OneMore(START, steps, Request(WHO, "key", false)); steps := steps + [Request(WHO, "key", false)];
    RequestStep();
    LookSteps(Run(START, steps));
    OneMore(START, steps, Work(0, Lease(0))); steps := steps + [Work(0, Lease(0))];
    OneMore(START, steps, Work(0, Start)); steps := steps + [Work(0, Start)];
    OneMore(START, steps, Work(0, ReadTarget(true))); steps := steps + [Work(0, ReadTarget(true))];
    ScanSteps();
    OneMore(START, steps, Work(0, BeginScan)); steps := steps + [Work(0, BeginScan)];
    OneMore(START, steps, Work(0, EndScan(false))); steps := steps + [Work(0, EndScan(false))];
  }

  lemma ReachesConsent() returns (steps: seq<Step>)
    ensures Run(START, steps) == Place(AGREED, [Prepare(Succeeded), Sign(Queued)], Idle, [], {}, {})
  {
    steps := ReachesLook();
    PreviewStep();
    OneMore(START, steps, Work(0, Close(false, false))); steps := steps + [Work(0, Close(false, false))];
    ConfirmStep();
    OneMore(START, steps, Confirm(1, YES)); steps := steps + [Confirm(1, YES)];
  }

  lemma ReachesReady() returns (steps: seq<Step>)
    ensures Run(START, steps) == Signs(Ready)
  {
    steps := ReachesConsent();
    OpenSteps();
    OneMore(START, steps, Work(0, Lease(1))); steps := steps + [Work(0, Lease(1))];
    OneMore(START, steps, Work(0, Start)); steps := steps + [Work(0, Start)];
    OneMore(START, steps, Work(0, Open(true))); steps := steps + [Work(0, Open(true))];
    TargetSteps();
    OneMore(START, steps, Work(0, ReadTarget(true))); steps := steps + [Work(0, ReadTarget(true))];
    OneMore(START, steps, Work(0, BeginScan)); steps := steps + [Work(0, BeginScan)];
    OneMore(START, steps, Work(0, EndScan(false))); steps := steps + [Work(0, EndScan(false))];
    CheckSteps();
    OneMore(START, steps, Work(0, CheckUnsent)); steps := steps + [Work(0, CheckUnsent)];
    OneMore(START, steps, Work(0, ReadAgreement(true))); steps := steps + [Work(0, ReadAgreement(true))];
    OneMore(START, steps, Work(0, ReadTargetAgain(true))); steps := steps + [Work(0, ReadTargetAgain(true))];
  }

  // A run in which the comment is signed once, received and recorded.
  lemma SignatureIsPossible() returns (start: State, steps: seq<Step>)
    ensures Initial(start) && Run(start, steps).issued == [3] && MINE in Run(start, steps).comments
    ensures Run(start, steps).db.journal == CLOSED
  {
    start := START;
    steps := ReachesReady();
    WriteStep();
    OneMore(START, steps, Work(0, Write)); steps := steps + [Work(0, Write)];
    PostStep();
    OneMore(START, steps, Work(0, Post)); steps := steps + [Work(0, Post)];
    ArriveStep();
    OneMore(START, steps, Arrive(MINE)); steps := steps + [Arrive(MINE)];
    ReplyStep();
    OneMore(START, steps, Work(0, Reply)); steps := steps + [Work(0, Reply)];
    CloseStep();
    OneMore(START, steps, Work(0, Close(true, false))); steps := steps + [Work(0, Close(true, false))];
  }

  // A reaper reads the preview's job while it runs, the job closes, and the reaper writes
  // what it made of the row: the status is observed and its job has timed out.
  lemma StatusOverwritten() returns (start: State, steps: seq<Step>)
    ensures Initial(start)
    ensures var db := Run(start, steps).db; HasStatus(db.journal, 0) && |db.jobs| == 1 && db.jobs[0].state == TimedOut
  {
    start := START;
    steps := ReachesLook();
    OneMore(START, steps, ReadRow(5, 0)); steps := steps + [ReadRow(5, 0)];
    OneMore(START, steps, Work(0, Close(false, false))); steps := steps + [Work(0, Close(false, false))];
    ClosesUnderReaper();
    ReaperWrites(Run(START, steps));
    OneMore(START, steps, Expire(5)); steps := steps + [Expire(5)];
  }

  const HELD := map[5 := Held(0, Prepare(Running))]

  lemma ClosesUnderReaper()
    ensures Next(Looking(Looked(false)), ReadRow(5, 0)) == Looking(Looked(false)).(held := HELD)
    ensures var t := Next(Looking(Looked(false)).(held := HELD), Work(0, Close(false, false)));
      t.db == Db(PREVIEWED, [Prepare(Succeeded)], Some(PR), Some(WHO)) && t.held == HELD
  {
    var s := Looking(Looked(false)).(held := HELD);
    assert REQUESTED + [Prepared(PR, WHO, false, false)] + [StatusObserved(0)] == PREVIEWED;
    assert s.db.jobs[0 := Prepare(Succeeded)] == [Prepare(Succeeded)];
  }

  lemma ReaperWrites(s: State)
    requires s.db == Db(PREVIEWED, [Prepare(Succeeded)], Some(PR), Some(WHO)) && s.held == HELD
    ensures var db := Next(s, Expire(5)).db; HasStatus(db.journal, 0) && |db.jobs| == 1 && db.jobs[0].state == TimedOut
  {
    assert PREVIEWED[2] == StatusObserved(0);
  }
}
