// What the requests, consents, receipts and jobs of the CLA outbox promise over every run.
module ClaGuarantees {
  import opened Prelude
  import opened Jobs
  import opened ClaOutbox
  import opened ClaProtocol

  // ---------- The invariant ----------

  predicate Reads(kind: Kind) {
    kind == PrepareKind || kind == CheckKind
  }

  // The consent of job j has its receipt.
  predicate HasReceipt(journal: seq<Event>, j: nat) {
    exists a | 0 <= a < |journal| :: Consented(journal, a, j) && SubmittedBefore(journal, a, |journal|)
  }

  // What is recorded once: the consent of a job, the receipt of a consent, the status that
  // a job observed.
  predicate EventApart(db: Db, i: nat)
    requires i < |db.journal|
  {
    match db.journal[i]
    case Confirmed(p, j) =>
      j < |db.jobs| && db.jobs[j].kind == WriteKind && db.jobs[j].preview == p
      && forall k | 0 <= k < i && db.journal[k].Confirmed? :: db.journal[k].job != j
    case Submitted(a, _) => !SubmittedBefore(db.journal, a, i)
    case StatusObserved(j) =>
      j < |db.jobs| && Reads(db.jobs[j].kind) && !HasStatus(db.journal[..i], j)
    case _ => true
  }

  predicate JobDone(db: Db, j: nat)
    requires j < |db.jobs|
  {
    db.jobs[j].state == Succeeded ==>
      (db.jobs[j].kind == WriteKind ==> HasReceipt(db.journal, j)) && (Reads(db.jobs[j].kind) ==> HasStatus(db.journal, j))
  }

  predicate PcFits(db: Db, pc: Pc) {
    match pc
    case Signing(j, _, _) => j < |db.jobs| && db.jobs[j].kind == WriteKind
    case Recorded(j) => j < |db.jobs| && db.jobs[j].kind == WriteKind && HasReceipt(db.journal, j)
    case Observing(j, _, _, _) => j < |db.jobs| && Reads(db.jobs[j].kind)
    case _ => true
  }

  predicate Sound(s: State) {
    && (forall i | 0 <= i < |s.db.journal| :: EventApart(s.db, i))
    && (forall j | 0 <= j < |s.db.jobs| :: JobDone(s.db, j))
    && (forall w | w in s.pcs :: PcFits(s.db, s.pcs[w]))
    && ReadCount(s.db.jobs) <= 64
  }

  // ---------- What a step may do ----------

  // The request a job was made for never changes.
  predicate SameRequest(was: Job, now: Job) {
    now.kind == was.kind && now.key == was.key && now.account == was.account && now.target == was.target && now.preview == was.preview
  }

  predicate JobsFollow(jobs: seq<Job>, more: seq<Job>) {
    |jobs| <= |more| && forall j | 0 <= j < |jobs| :: SameRequest(jobs[j], more[j])
  }

  predicate Goes(d: Db, e: Db) {
    d.journal <= e.journal && JobsFollow(d.jobs, e.jobs)
  }

  lemma ReceiptStays(journal: seq<Event>, more: seq<Event>, j: nat)
    requires journal <= more && HasReceipt(journal, j)
    ensures HasReceipt(more, j)
  {
    var a :| 0 <= a < |journal| && Consented(journal, a, j) && SubmittedBefore(journal, a, |journal|);
    var k :| 0 <= k < |journal| && journal[k].Submitted? && journal[k].authorization == a;
    assert more[k] == journal[k];
    assert Consented(more, a, j) && SubmittedBefore(more, a, |more|);
  }

  lemma StatusStays(journal: seq<Event>, more: seq<Event>, j: nat)
    requires journal <= more && HasStatus(journal, j)
    ensures HasStatus(more, j)
  {
    var k :| 0 <= k < |journal| && journal[k] == StatusObserved(j);
    assert more[k] == StatusObserved(j);
  }

  lemma EventStays(d: Db, e: Db, i: nat)
    requires Goes(d, e) && i < |d.journal| && EventApart(d, i)
    ensures EventApart(e, i)
  {
    match d.journal[i]
    case Confirmed(_, j) => assert SameRequest(d.jobs[j], e.jobs[j]);
    case StatusObserved(j) =>
      assert SameRequest(d.jobs[j], e.jobs[j]);
      assert d.journal[..i] == e.journal[..i];
    case Submitted(a, _) => assert SubmittedBefore(e.journal, a, i) <==> SubmittedBefore(d.journal, a, i);
    case _ =>
  }

  lemma PcStays(d: Db, e: Db, pc: Pc)
    requires Goes(d, e) && PcFits(d, pc)
    ensures PcFits(e, pc)
  {
    if pc.Signing? || pc.Recorded? || pc.Observing? {
      assert SameRequest(d.jobs[pc.job], e.jobs[pc.job]);
    }
    if pc.Recorded? {
      ReceiptStays(d.journal, e.journal, pc.job);
    }
  }

  lemma DoneStays(d: Db, e: Db, j: nat)
    requires Goes(d, e) && j < |d.jobs| && JobDone(d, j) && d.jobs[j].state == Succeeded
    ensures JobDone(e, j)
  {
    assert SameRequest(d.jobs[j], e.jobs[j]);
    if d.jobs[j].kind == WriteKind {
      ReceiptStays(d.journal, e.journal, j);
    } else if Reads(d.jobs[j].kind) {
      StatusStays(d.journal, e.journal, j);
    }
  }

  // Whatever goes on, appends what is apart, and ends only what is done.
  lemma SoundStep(s: State, t: State)
    requires Sound(s) && Goes(s.db, t.db) && ReadCount(t.db.jobs) <= 64
    requires forall i | |s.db.journal| <= i < |t.db.journal| :: EventApart(t.db, i)
    requires forall j | 0 <= j < |t.db.jobs| && t.db.jobs[j].state == Succeeded ::
      (j < |s.db.jobs| && s.db.jobs[j].state == Succeeded) || JobDone(t.db, j)
    requires forall w | w in t.pcs :: (w in s.pcs && t.pcs[w] == s.pcs[w]) || PcFits(t.db, t.pcs[w])
    ensures Sound(t)
  {
    forall i | 0 <= i < |t.db.journal| ensures EventApart(t.db, i) {
      if i < |s.db.journal| {
        EventStays(s.db, t.db, i);
      }
    }
    forall j | 0 <= j < |t.db.jobs| ensures JobDone(t.db, j) {
      if j < |s.db.jobs| && s.db.jobs[j].state == Succeeded {
        DoneStays(s.db, t.db, j);
      }
    }
    forall w | w in t.pcs ensures PcFits(t.db, t.pcs[w]) {
      if w in s.pcs && t.pcs[w] == s.pcs[w] {
        PcStays(s.db, t.db, s.pcs[w]);
      }
    }
  }

  predicate Advances(s: State, t: State) {
    Sound(t) && Goes(s.db, t.db)
  }

  // ---------- Counting the reads ----------

  lemma {:induction false} ReadsSame(jobs: seq<Job>, more: seq<Job>)
    requires |jobs| == |more| && forall j | 0 <= j < |jobs| :: more[j].kind == jobs[j].kind
    ensures ReadCount(more) == ReadCount(jobs)
  {
    if jobs != [] {
      ReadsSame(jobs[1..], more[1..]);
    }
  }

  lemma {:induction false} ReadsOneMore(jobs: seq<Job>, job: Job)
    ensures ReadCount(jobs + [job]) == ReadCount(jobs) + if Reads(job.kind) then 1 else 0
  {
    if jobs == [] {
      assert jobs + [job] == [job] && [job][1..] == [];
    } else {
      assert (jobs + [job])[1..] == jobs[1..] + [job];
      ReadsOneMore(jobs[1..], job);
    }
  }

  // ---------- The steps ----------

  // The jobs change state only, and none of them succeeds.
  predicate JobsOnly(d: Db, e: Db) {
    e.journal == d.journal && |e.jobs| == |d.jobs|
    && forall j | 0 <= j < |d.jobs| :: SameRequest(d.jobs[j], e.jobs[j]) && (e.jobs[j].state == Succeeded ==> d.jobs[j].state == Succeeded)
  }

  lemma JobsOnlyStep(s: State, t: State, w: nat, pc: Pc)
    requires Sound(s) && JobsOnly(s.db, t.db) && (t.pcs == s.pcs || (t.pcs == s.pcs[w := pc] && PcFits(t.db, pc)))
    ensures Advances(s, t)
  {
    ReadsSame(s.db.jobs, t.db.jobs);
    SoundStep(s, t);
  }

  lemma RaisedSound(s: State, w: nat)
    requires Sound(s)
    ensures Advances(s, Raised(s, w))
  {
    JobsOnlyStep(s, Raised(s, w), w, Idle);
  }

  lemma StillFits(s: State, w: nat, pc: Pc)
    requires Sound(s) && PcFits(s.db, pc)
    ensures Advances(s, Moved(s, w, pc))
  {
    JobsOnlyStep(s, Moved(s, w, pc), w, pc);
  }

  lemma OpenSound(s: State, w: nat, j: nat, contentOk: bool)
    requires Sound(s)
    ensures Advances(s, StepOpen(s, w, j, contentOk))
  {
    RaisedSound(s, w);
    if j < |s.db.jobs| && s.db.jobs[j].kind == WriteKind {
      match SignOpening(s.db, j, w, contentOk)
      case Ok(AlreadyRecorded) =>
        var a := AuthorizationOf(s.db.journal, j, 0);
        assert Consented(s.db.journal, a.value, j);
        StillFits(s, w, Recorded(j));
      case Ok(Proceed(a)) => StillFits(s, w, Signing(j, a, Authorized));
      case Err(_) =>
    }
  }

  lemma LookSound(s: State, w: nat, j: nat, remoteOk: bool)
    requires Sound(s)
    ensures Advances(s, StepLook(s, w, j, remoteOk))
  {
    RaisedSound(s, w);
    if j < |s.db.jobs| && Reads(s.db.jobs[j].kind) {
      match CurrentTarget(s.db, j, w, remoteOk)
      case Ok(t) => StillFits(s, w, Observing(j, t, s.db.jobs[j].account, LookTargeted));
      case Err(_) =>
    }
  }

  lemma WriteSound(s: State, w: nat, j: nat, a: nat)
    requires Sound(s) && At(s, w).Signing? && At(s, w).job == j
    ensures Advances(s, StepWrite(s, w, j, a))
  {
    RaisedSound(s, w);
    var r := StartWrite(s.db, j, w, a);
    if r.Ok? {
      var t := StepWrite(s, w, j, a);
      assert PcFits(s.db, s.pcs[w]);
      PcStays(s.db, t.db, Signing(j, a, Sending));
      SoundStep(s, t);
    }
  }

  lemma FinishFollows(d: Db, e: Db, j: nat)
    requires j < |d.jobs| && e.jobs == Finished(d, j).jobs
    ensures JobsFollow(d.jobs, e.jobs) && ReadCount(e.jobs) == ReadCount(d.jobs)
    ensures forall k | 0 <= k < |e.jobs| && e.jobs[k].state == Succeeded :: k == j || d.jobs[k].state == Succeeded
  {
    ReadsSame(d.jobs, e.jobs);
  }

  // The end of job j, with what it records.
  lemma EndSound(s: State, t: State, w: nat, j: nat)
    requires Sound(s) && j < |s.db.jobs| && t.db.jobs == Finished(s.db, j).jobs && s.db.journal <= t.db.journal && t.pcs == s.pcs[w := Idle]
    requires forall i | |s.db.journal| <= i < |t.db.journal| :: EventApart(t.db, i)
    requires JobDone(t.db, j)
    ensures Advances(s, t)
  {
    FinishFollows(s.db, t.db, j);
    SoundStep(s, t);
  }

  // The receipt is recorded once, and with it the job ends.
  lemma CloseSound(s: State, w: nat, j: nat, a: nat)
    requires Sound(s) && Inv(s) && At(s, w) == Signing(j, a, Signed)
    ensures Advances(s, StepClose(s, w, j, a))
  {
    RaisedSound(s, w);
    var r := SignClosing(s.db, j, w, a);
    if r.Ok? {
      var t := StepClose(s, w, j, a);
      assert PcFits(s.db, s.pcs[w]) && PcOk(s, w, s.pcs[w]);
      ReceiptRecorded(s.db, t.db.journal, j, a);
      ReceiptApart(s.db, t.db, j, a);
      EndSound(s, t, w, j);
    }
  }

  lemma ReceiptRecorded(db: Db, journal: seq<Event>, j: nat, a: nat)
    requires Consented(db.journal, a, j) && RecordReceipt(db, j, a).Ok? && journal == RecordReceipt(db, j, a).value.journal
    ensures HasReceipt(journal, j)
  {
    if !SubmittedBefore(db.journal, a, |db.journal|) {
      assert journal[|db.journal|] == Submitted(a, j);
    }
    assert Consented(journal, a, j) && SubmittedBefore(journal, a, |journal|);
  }

  lemma ReceiptApart(d: Db, e: Db, j: nat, a: nat)
    requires RecordReceipt(d, j, a).Ok? && e.journal == RecordReceipt(d, j, a).value.journal
    ensures d.journal <= e.journal && forall i | |d.journal| <= i < |e.journal| :: EventApart(e, i)
  {
    forall i | |d.journal| <= i < |e.journal| ensures EventApart(e, i) {
      assert e.journal[i] == Submitted(a, j) && i == |d.journal|;
      assert SubmittedBefore(e.journal, a, i) <==> SubmittedBefore(d.journal, a, i);
    }
  }

  // Up to three events; the status is recorded only by a job that has not done so.
  lemma ObservedSound(s: State, w: nat, pc: Pc, found: bool, passed: bool, repeated: bool)
    requires Sound(s) && At(s, w) == pc && pc.Observing?
    ensures Advances(s, StepObserved(s, w, pc, found, passed, repeated))
  {
    RaisedSound(s, w);
    var r := ObserveClosing(s.db, pc.job, w, pc.target, pc.account, found, passed, repeated);
    if r.Ok? {
      var t := StepObserved(s, w, pc, found, passed, repeated);
      assert PcFits(s.db, s.pcs[w]);
      if HasStatus(s.db.journal, pc.job) {
        RepeatedEvents(s, w, pc, found, passed, repeated);
      } else {
        ObservedEvents(s, w, pc, found, passed, repeated);
      }
      EndSound(s, t, w, pc.job);
    }
  }

  lemma RepeatedEvents(s: State, w: nat, pc: Pc, found: bool, passed: bool, repeated: bool)
    requires pc.Observing? && ObserveClosing(s.db, pc.job, w, pc.target, pc.account, found, passed, repeated).Ok?
    requires pc.job < |s.db.jobs| && Reads(s.db.jobs[pc.job].kind) && HasStatus(s.db.journal, pc.job)
    ensures var e := ObserveClosing(s.db, pc.job, w, pc.target, pc.account, found, passed, repeated).value;
      s.db.journal <= e.journal && HasStatus(e.journal, pc.job)
      && forall i | |s.db.journal| <= i < |e.journal| :: EventApart(e, i)
  {
    var e := ObserveClosing(s.db, pc.job, w, pc.target, pc.account, found, passed, repeated).value;
    StatusStays(s.db.journal, e.journal, pc.job);
    forall i | |s.db.journal| <= i < |e.journal| ensures EventApart(e, i) {
      var a := e.journal[i].authorization;
      assert i == |s.db.journal|;
      assert SubmittedBefore(e.journal, a, i) <==> SubmittedBefore(s.db.journal, a, i);
    }
  }

  lemma ObservedEvents(s: State, w: nat, pc: Pc, found: bool, passed: bool, repeated: bool)
    requires pc.Observing? && ObserveClosing(s.db, pc.job, w, pc.target, pc.account, found, passed, repeated).Ok?
    requires pc.job < |s.db.jobs| && Reads(s.db.jobs[pc.job].kind) && !HasStatus(s.db.journal, pc.job)
    ensures var e := ObserveClosing(s.db, pc.job, w, pc.target, pc.account, found, passed, repeated).value;
      s.db.journal <= e.journal && HasStatus(e.journal, pc.job)
      && forall i | |s.db.journal| <= i < |e.journal| :: EventApart(e, i)
  {
    var e := ObserveClosing(s.db, pc.job, w, pc.target, pc.account, found, passed, repeated).value;
    var n := |e.journal| - 1;
    assert e.journal[n] == StatusObserved(pc.job);
    forall i | |s.db.journal| <= i < |e.journal| ensures EventApart(e, i) {
      if i == n {
        forall k | 0 <= k < n ensures e.journal[..n][k] != StatusObserved(pc.job) {
          assert k < |s.db.journal| ==> e.journal[k] == s.db.journal[k];
        }
      } else if e.journal[i].Submitted? {
        var a := e.journal[i].authorization;
        assert forall k | 0 <= k < i :: e.journal[k].Submitted? ==> k < |s.db.journal| && e.journal[k] == s.db.journal[k];
      }
    }
  }

  lemma FinishSound(s: State, w: nat, j: nat)
    requires Sound(s) && At(s, w) == Recorded(j)
    ensures Advances(s, StepFinish(s, w, j))
  {
    var t := StepFinish(s, w, j);
    assert PcFits(s.db, s.pcs[w]);
    ReadsSame(s.db.jobs, t.db.jobs);
    SoundStep(s, t);
  }

  lemma TargetSound(s: State, w: nat, j: nat, a: nat, remoteOk: bool, again: bool)
    requires Sound(s) && At(s, w).Signing? && At(s, w).job == j
    ensures Advances(s, StepTarget(s, w, j, a, remoteOk, again))
  {
    RaisedSound(s, w);
    assert PcFits(s.db, s.pcs[w]);
    StillFits(s, w, Signing(j, a, Ready));
    StillFits(s, w, Signing(j, a, Targeted));
  }

  // Moves that only change the worker's place or the remote, or only its job's state.
  predicate OfPlace(m: Move) {
    m.BeginScan? || m.EndScan? || m.CheckUnsent? || m.ReadAgreement? || m.Post? || m.Reply?
  }

  predicate OfJob(m: Move) {
    m.Lease? || m.Start? || m.Fail? || m.Crash?
  }

  // The same job, further on or back.
  predicate SamePlace(was: Pc, now: Pc) {
    (was.Signing? && now.Signing? && was.job == now.job) || (was.Observing? && now.Observing? && was.job == now.job)
  }

  lemma PlaceMoves(s: State, w: nat, m: Move)
    requires OfPlace(m)
    ensures var t := WorkerStep(s, w, m);
      t == s || t == Raised(s, w) || (t.db == s.db && t.pcs == s.pcs[w := At(t, w)] && SamePlace(At(s, w), At(t, w)))
  {
  }

  lemma PlaceSound(s: State, w: nat, m: Move)
    requires Sound(s) && OfPlace(m)
    ensures Advances(s, WorkerStep(s, w, m))
  {
    var t := WorkerStep(s, w, m);
    PlaceMoves(s, w, m);
    RaisedSound(s, w);
    if SamePlace(At(s, w), At(t, w)) {
      assert PcFits(s.db, s.pcs[w]);
      if t.db == s.db {
        ReadsSame(s.db.jobs, t.db.jobs);
        SoundStep(s, t);
      }
    }
  }

  lemma JobSound(s: State, w: nat, m: Move)
    requires Sound(s) && OfJob(m)
    ensures Advances(s, WorkerStep(s, w, m))
  {
    JobsOnlyStep(s, WorkerStep(s, w, m), w, At(WorkerStep(s, w, m), w));
  }

  lemma WorkerSound(s: State, w: nat, m: Move)
    requires Sound(s) && Inv(s)
    ensures Advances(s, WorkerStep(s, w, m))
  {
    var pc := At(s, w);
    if OfPlace(m) {
      PlaceSound(s, w, m);
    } else if OfJob(m) {
      JobSound(s, w, m);
    } else {
      match m
      case Open(contentOk) => if pc.Started? { OpenSound(s, w, pc.job, contentOk); }
      case ReadTarget(remoteOk) =>
        if pc.Started? {
          LookSound(s, w, pc.job, remoteOk);
        } else if pc.Signing? {
          TargetSound(s, w, pc.job, pc.authorization, remoteOk, false);
        }
      case ReadTargetAgain(remoteOk) => if pc.Signing? { TargetSound(s, w, pc.job, pc.authorization, remoteOk, true); }
      case Write => if pc.Signing? { WriteSound(s, w, pc.job, pc.authorization); }
      case Close(passed, repeated) =>
        if pc.Signing? && pc.phase == Signed {
          CloseSound(s, w, pc.job, pc.authorization);
        } else if pc.Observing? && pc.look.Looked? {
          ObservedSound(s, w, pc, pc.look.found, passed, repeated);
        } else if pc.Recorded? {
          FinishSound(s, w, pc.job);
        }
    }
  }

  lemma ConfirmSound(s: State, preview: nat, c: Consent)
    requires Sound(s)
    ensures Advances(s, WithPair(s, ConfirmCla(s.db, preview, c)))
  {
    var r := ConfirmCla(s.db, preview, c);
    if r.Ok? {
      var t := WithPair(s, r);
      ReadsOneMore(s.db.jobs, t.db.jobs[|s.db.jobs|]);
      forall k | 0 <= k < |s.db.journal| && s.db.journal[k].Confirmed? ensures s.db.journal[k].job < |s.db.jobs| {
        assert EventApart(s.db, k);
      }
      assert EventApart(t.db, |s.db.journal|);
      SoundStep(s, t);
    }
  }

  lemma RequestSound(s: State, account: Account, key: string, check: bool)
    requires Sound(s)
    ensures Advances(s, WithPair(s, RequestCla(s.db, account, key, check)))
  {
    var t := WithPair(s, RequestCla(s.db, account, key, check));
    if t != s {
      ReadsOneMore(s.db.jobs, t.db.jobs[|s.db.jobs|]);
      SoundStep(s, t);
    }
  }

  lemma OtherWorkSound(s: State, job: Job)
    requires Sound(s)
    ensures Advances(s, Next(s, OtherWork(job)))
  {
    var t := Next(s, OtherWork(job));
    if t != s {
      ReadsOneMore(s.db.jobs, t.db.jobs[|s.db.jobs|]);
      SoundStep(s, t);
    }
  }

  lemma OtherDoneSound(s: State, j: nat)
    requires Sound(s)
    ensures Advances(s, Next(s, OtherDone(j)))
  {
    var t := Next(s, OtherDone(j));
    if t != s {
      FinishFollows(s.db, t.db, j);
      SoundStep(s, t);
    }
  }

  lemma RowsSound(s: State, step: Step)
    requires Sound(s) && (step.Expire? || step.Retry? || step.Cancel?)
    ensures Advances(s, Next(s, step))
  {
    JobsOnlyStep(s, Next(s, step), 0, Idle);
  }

  lemma WorldSound(s: State, step: Step)
    requires Sound(s) && (step.ReadRow? || step.Arrive? || step.RemoteComment? || step.Republish? || step.Reconnect?)
    ensures Advances(s, Next(s, step))
  {
    JobsOnlyStep(s, Next(s, step), 0, Idle);
  }

  lemma StepSound(s: State, step: Step)
    requires Sound(s) && Inv(s)
    ensures Advances(s, Next(s, step))
  {
    match step
    case Work(w, m) => WorkerSound(s, w, m);
    case Request(account, key, check) => RequestSound(s, account, key, check);
    case Confirm(preview, consent) => ConfirmSound(s, preview, consent);
    case OtherWork(job) => OtherWorkSound(s, job);
    case OtherDone(j) => OtherDoneSound(s, j);
    case Expire(_) => RowsSound(s, step);
    case Retry(_) => RowsSound(s, step);
    case Cancel(_) => RowsSound(s, step);
    case _ => WorldSound(s, step);
  }

  lemma {:induction false} RunSound(s: State, steps: seq<Step>)
    requires Sound(s) && Inv(s)
    ensures Sound(Run(s, steps)) && Inv(Run(s, steps))
    decreases |steps|
  {
    if steps != [] {
      StepSound(s, steps[0]);
      StepKeeps(s, steps[0]);
      RunSound(Next(s, steps[0]), steps[1..]);
    }
  }

  lemma {:induction false} RunGoes(s: State, steps: seq<Step>)
    requires Sound(s) && Inv(s)
    ensures Goes(s.db, Run(s, steps).db)
    decreases |steps|
  {
    if steps != [] {
      StepSound(s, steps[0]);
      StepKeeps(s, steps[0]);
      RunGoes(Next(s, steps[0]), steps[1..]);
      GoesOn(s.db, Next(s, steps[0]).db, Run(s, steps).db);
    }
  }

  lemma GoesOn(d: Db, e: Db, f: Db)
    requires Goes(d, e) && Goes(e, f)
    ensures Goes(d, f)
  {
    forall j | 0 <= j < |d.jobs| ensures SameRequest(d.jobs[j], f.jobs[j]) {
      assert SameRequest(d.jobs[j], e.jobs[j]) && SameRequest(e.jobs[j], f.jobs[j]);
    }
  }

  // ---------- What is promised ----------

  lemma {:induction false} FindStays(jobs: seq<Job>, more: seq<Job>, kind: Kind, key: string, from: nat)
    requires from <= |jobs| && JobsFollow(jobs, more) && FindJob(jobs, kind, key, from).Some?
    ensures FindJob(more, kind, key, from) == FindJob(jobs, kind, key, from)
    decreases |jobs| - from
  {
    assert from < |jobs| && SameRequest(jobs[from], more[from]);
    if jobs[from].kind != kind || jobs[from].key != key {
      FindStays(jobs, more, kind, key, from + 1);
    }
  }

  lemma {:induction false} FindNew(jobs: seq<Job>, job: Job, from: nat)
    requires from <= |jobs| && FindJob(jobs, job.kind, job.key, from).None?
    ensures FindJob(jobs + [job], job.kind, job.key, from) == Some(|jobs|)
    decreases |jobs| - from
  {
    if from < |jobs| {
      FindNew(jobs, job, from + 1);
    }
  }

  // A request, once accepted, is answered with its first job in every later state, to the
  // same account only, and changes nothing; and at most 64 reads are ever made.
  lemma RequestedOnce(start: State, steps: seq<Step>, account: Account, key: string, check: bool, more: seq<Step>, again: Account)
    requires Initial(start) && RequestCla(Run(start, steps).db, account, key, check).Ok?
    ensures var s := Run(start, steps);
      var (db, id) := RequestCla(s.db, account, key, check).value;
      var u := Run(s.(db := db), more);
      RequestCla(u.db, again, key, check) == (if again == account then Ok((u.db, id)) else Err(RepeatDiffers))
      && ReadCount(u.db.jobs) <= 64
  {
    RunSound(start, steps);
    var s := Run(start, steps);
    var kind := if check then CheckKind else PrepareKind;
    StepSound(s, Request(account, key, check));
    StepKeeps(s, Request(account, key, check));
    var t := Next(s, Request(account, key, check));
    var id := RequestCla(s.db, account, key, check).value.1;
    if FindJob(s.db.jobs, kind, key, 0).None? {
      FindNew(s.db.jobs, t.db.jobs[|s.db.jobs|], 0);
    }
    RunSound(t, more);
    RunGoes(t, more);
    FindStays(t.db.jobs, Run(t, more).db.jobs, kind, key, 0);
    assert SameRequest(t.db.jobs[id], Run(t, more).db.jobs[id]);
  }

  // Each consent was given to the latest preview, which showed no signature; it is that
  // preview's and its job's only consent; and all writes begun before it had their receipts.
  lemma ConsentIsFresh(start: State, steps: seq<Step>, i: nat)
    requires Initial(start) && i < |Run(start, steps).db.journal| && Run(start, steps).db.journal[i].Confirmed?
    ensures var db := Run(start, steps).db;
      var p, j := db.journal[i].preview, db.journal[i].job;
      LatestPrepared(db.journal, i) == Some(p) && !db.journal[p].existing && !db.journal[p].passed
      && j < |db.jobs| && db.jobs[j].kind == WriteKind && db.jobs[j].preview == p
      && (forall k | 0 <= k < |db.journal| && db.journal[k].Confirmed? && k != i :: db.journal[k].preview != p && db.journal[k].job != j)
      && (forall k | 0 <= k < i && db.journal[k].WriteStarted? :: SubmittedBefore(db.journal, db.journal[k].authorization, i))
  {
    RunSound(start, steps);
    var db := Run(start, steps).db;
    assert EventApart(db, i) && EventOk(db.journal, i);
    forall k | 0 <= k < |db.journal| && db.journal[k].Confirmed? && k != i
      ensures db.journal[k].preview != db.journal[i].preview && db.journal[k].job != db.journal[i].job
    {
      assert EventApart(db, k);
      ConsentsDiffer(db.journal, if k < i then k else i, if k < i then i else k);
    }
    forall k | 0 <= k < i && db.journal[k].WriteStarted? ensures SubmittedBefore(db.journal, db.journal[k].authorization, i) {
      assert db.journal[..i][k] == db.journal[k];
      assert SubmittedBefore(db.journal[..i], db.journal[k].authorization, i);
    }
  }

  lemma ConsentsDiffer(journal: seq<Event>, i: nat, k: nat)
    requires JournalOk(journal) && i < k < |journal| && journal[i].Confirmed? && journal[k].Confirmed?
    ensures journal[i].preview != journal[k].preview
  {
    assert EventOk(journal, k);
    assert journal[..k][i] == journal[i];
  }

  // A consent's write is begun once, by the job the consent was given for, and no two
  // writes are for one PR and account.
  lemma WritesAreApart(start: State, steps: seq<Step>, i: nat, k: nat)
    requires Initial(start) && i < k < |Run(start, steps).db.journal|
    requires var journal := Run(start, steps).db.journal; journal[i].WriteStarted? && journal[k].WriteStarted?
    ensures var journal := Run(start, steps).db.journal;
      Consented(journal, journal[i].authorization, journal[i].job) && journal[i].authorization != journal[k].authorization
      && journal[i].job != journal[k].job
      && KeyOf(journal, journal[i].authorization) != KeyOf(journal, journal[k].authorization)
  {
    RunSound(start, steps);
    var db := Run(start, steps).db;
    assert EventOk(db.journal, i) && EventOk(db.journal, k);
    WritesApart(db.journal, i, k);
    var a, b := db.journal[i].authorization, db.journal[k].authorization;
    assert EventApart(db, a) && EventApart(db, b);
  }

  // A consent has one receipt at most.
  lemma ReceiptsAreApart(start: State, steps: seq<Step>, i: nat, k: nat)
    requires Initial(start) && i < k < |Run(start, steps).db.journal|
    requires var journal := Run(start, steps).db.journal; journal[i].Submitted? && journal[k].Submitted?
    ensures Run(start, steps).db.journal[i].authorization != Run(start, steps).db.journal[k].authorization
  {
    RunSound(start, steps);
    assert EventApart(Run(start, steps).db, k);
  }

  // A signing job that has succeeded has the receipt of its consent in the journal and the
  // comment on the remote.
  lemma SignedIsOnTheRemote(start: State, steps: seq<Step>, j: nat)
    requires Initial(start) && j < |Run(start, steps).db.jobs|
    requires Run(start, steps).db.jobs[j].kind == WriteKind && Run(start, steps).db.jobs[j].state == Succeeded
    ensures var s := Run(start, steps);
      exists a | 0 <= a < |s.db.journal| ::
        Consented(s.db.journal, a, j) && SubmittedBefore(s.db.journal, a, |s.db.journal|) && KeyOf(s.db.journal, a) in s.comments
  {
    RunSound(start, steps);
    var s := Run(start, steps);
    assert JobDone(s.db, j);
    var a :| 0 <= a < |s.db.journal| && Consented(s.db.journal, a, j) && SubmittedBefore(s.db.journal, a, |s.db.journal|);
    var k :| 0 <= k < |s.db.journal| && s.db.journal[k].Submitted? && s.db.journal[k].authorization == a;
    assert KeyOf(s.db.journal, s.db.journal[k].authorization) in s.comments;
  }

  // A reading job that has succeeded has its observed status in the journal, and no job
  // has two.
  lemma StatusIsObservedOnce(start: State, steps: seq<Step>, j: nat)
    requires Initial(start) && j < |Run(start, steps).db.jobs| && Reads(Run(start, steps).db.jobs[j].kind)
    ensures var db := Run(start, steps).db;
      (db.jobs[j].state == Succeeded ==> HasStatus(db.journal, j))
      && forall i, k | 0 <= i < k < |db.journal| && db.journal[i] == StatusObserved(j) :: db.journal[k] != StatusObserved(j)
  {
    RunSound(start, steps);
    var s := Run(start, steps);
    assert JobDone(s.db, j);
    forall i, k | 0 <= i < k < |s.db.journal| && s.db.journal[i] == StatusObserved(j) ensures s.db.journal[k] != StatusObserved(j) {
      assert EventApart(s.db, k);
      assert s.db.journal[..k][i] == s.db.journal[i];
    }
  }

  // ---------- Successes that are written over ----------

  // A session writes back, over a job that has succeeded, a row that it read before.
  predicate Overwrites(s: State, step: Step, j: nat) {
    && (step.Expire? || step.Retry? || step.Cancel?)
    && Holds(s, step.session) && s.held[step.session].job == j && s.db.jobs[j].state == Succeeded
    && var row := s.held[step.session].row;
       (step.Expire? ==> UnderWay(row.state))
       && (step.Retry? ==> Dead(row.state) && row.attempts < row.maxAttempts)
       && (step.Cancel? ==> row.state == Queued)
  }

  // Nothing else undoes a success.
  lemma SuccessUndoneIff(s: State, step: Step, j: nat)
    requires j < |s.db.jobs| && s.db.jobs[j].state == Succeeded
    ensures j < |Next(s, step).db.jobs| && (Next(s, step).db.jobs[j].state != Succeeded <==> Overwrites(s, step, j))
  {
    if step.Work? {
      WorkRespects(s, step.worker, step.move);
    }
  }

  // A move leaves what has succeeded as it is, and adds a status only with a success.
  predicate Respects(s: State, t: State) {
    && |s.db.jobs| <= |t.db.jobs| && s.db.journal <= t.db.journal
    && (forall j | 0 <= j < |s.db.jobs| && s.db.jobs[j].state == Succeeded :: t.db.jobs[j].state == Succeeded)
    && forall k | |s.db.journal| <= k < |t.db.journal| && t.db.journal[k].StatusObserved? ::
         t.db.journal[k].job < |t.db.jobs| && t.db.jobs[t.db.journal[k].job].state == Succeeded
  }

  lemma RaisedRespects(s: State, w: nat)
    ensures Respects(s, Raised(s, w))
  {
  }

  lemma JobRespects(s: State, w: nat, m: Move)
    requires OfJob(m)
    ensures Respects(s, WorkerStep(s, w, m))
  {
  }

  lemma PlaceRespects(s: State, w: nat, m: Move)
    requires OfPlace(m) || m.Open? || m.ReadTarget? || m.ReadTargetAgain?
    ensures Respects(s, WorkerStep(s, w, m))
  {
    RaisedRespects(s, w);
    if OfPlace(m) {
      PlaceMoves(s, w, m);
    }
  }

  lemma WriteRespects(s: State, w: nat)
    ensures Respects(s, WorkerStep(s, w, Write))
  {
    RaisedRespects(s, w);
  }

  lemma ObservedRespects(s: State, w: nat, pc: Pc, found: bool, passed: bool, repeated: bool)
    requires pc.Observing?
    ensures Respects(s, StepObserved(s, w, pc, found, passed, repeated))
  {
    RaisedRespects(s, w);
  }

  lemma SignedRespects(s: State, w: nat, j: nat, a: nat)
    ensures Respects(s, StepClose(s, w, j, a))
  {
    RaisedRespects(s, w);
  }

  lemma CloseRespects(s: State, w: nat, m: Move)
    requires m.Close?
    ensures Respects(s, WorkerStep(s, w, m))
  {
    var pc := At(s, w);
    if pc.Signing? {
      SignedRespects(s, w, pc.job, pc.authorization);
    } else if pc.Observing? && pc.look.Looked? {
      ObservedRespects(s, w, pc, pc.look.found, m.passed, m.repeated);
    }
  }

  lemma WorkRespects(s: State, w: nat, m: Move)
    ensures Respects(s, WorkerStep(s, w, m))
  {
    if OfJob(m) {
      JobRespects(s, w, m);
    } else if m.Write? {
      WriteRespects(s, w);
    } else if m.Close? {
      CloseRespects(s, w, m);
    } else {
      PlaceRespects(s, w, m);
    }
  }

  predicate NeverOverwritten(s: State, steps: seq<Step>, j: nat)
    decreases |steps|
  {
    steps == [] || (!Overwrites(s, steps[0], j) && NeverOverwritten(Next(s, steps[0]), steps[1..], j))
  }

  predicate StatusStands(db: Db, j: nat) {
    HasStatus(db.journal, j) ==> j < |db.jobs| && db.jobs[j].state == Succeeded
  }

  // A status comes with its job's success.
  lemma StatusStep(s: State, step: Step, j: nat)
    requires StatusStands(s.db, j) && !Overwrites(s, step, j)
    ensures StatusStands(Next(s, step).db, j)
  {
    if HasStatus(s.db.journal, j) {
      SuccessUndoneIff(s, step, j);
    } else if HasStatus(Next(s, step).db.journal, j) {
      var t := Next(s, step);
      var k :| 0 <= k < |t.db.journal| && t.db.journal[k] == StatusObserved(j);
      NewStatus(s, step, k);
    }
  }

  lemma NewStatus(s: State, step: Step, k: nat)
    requires var t := Next(s, step);
      k < |t.db.journal| && t.db.journal[k].StatusObserved? && (k < |s.db.journal| ==> s.db.journal[k] != t.db.journal[k])
    ensures var t := Next(s, step);
      t.db.journal[k].job < |t.db.jobs| && t.db.jobs[t.db.journal[k].job].state == Succeeded
  {
    if step.Work? {
      WorkRespects(s, step.worker, step.move);
    }
  }

  lemma {:induction false} StatusRun(s: State, steps: seq<Step>, j: nat)
    requires StatusStands(s.db, j) && NeverOverwritten(s, steps, j)
    ensures StatusStands(Run(s, steps).db, j)
    decreases |steps|
  {
    if steps != [] {
      StatusStep(s, steps[0], j);
      StatusRun(Next(s, steps[0]), steps[1..], j);
    }
  }

  // A reading job has succeeded exactly if its status is in the journal, in every run in
  // which no session writes over its success a row that it read before.
  lemma StatusMeansSuccess(start: State, steps: seq<Step>, j: nat)
    requires Initial(start) && NeverOverwritten(start, steps, j)
    requires j < |Run(start, steps).db.jobs| && Reads(Run(start, steps).db.jobs[j].kind)
    ensures Run(start, steps).db.jobs[j].state == Succeeded <==> HasStatus(Run(start, steps).db.journal, j)
  {
    StatusRun(start, steps, j);
    StatusIsObservedOnce(start, steps, j);
  }
}
