// What the call budget of a proposal chain keeps over every run.
module BudgetProofs {
  import opened Prelude
  import opened Jobs
  import opened ProposalBudget

  // ---------- One more event ----------

  lemma {:induction false} CallsPrefix(journal: seq<Event>, more: seq<Event>, root: nat, n: nat)
    requires n <= |journal| && journal <= more
    ensures Calls(more, root, n) == Calls(journal, root, n)
  {
    if n > 0 {
      CallsPrefix(journal, more, root, n - 1);
    }
  }

  lemma {:induction false} GrantPrefix(journal: seq<Event>, more: seq<Event>, root: nat, binding: Binding, n: nat)
    requires n <= |journal| && journal <= more
    ensures Grant(more, root, binding, n) == Grant(journal, root, binding, n)
  {
    if n > 0 {
      GrantPrefix(journal, more, root, binding, n - 1);
      CallsPrefix(journal, more, root, n - 1);
    }
  }

  lemma {:induction false} GrantedToPrefix(journal: seq<Event>, more: seq<Event>, root: nat, n: nat)
    requires n <= |journal| && journal <= more
    ensures GrantedTo(more, root, n) == GrantedTo(journal, root, n)
  {
    if n > 0 {
      GrantedToPrefix(journal, more, root, n - 1);
    }
  }

  // An accepted history's grant is the event it was granted by, made at exactly six.
  lemma {:induction false} GrantIsGrantedTo(journal: seq<Event>, root: nat, binding: Binding, n: nat)
    requires n <= |journal| && Grant(journal, root, binding, n).Ok?
    ensures Grant(journal, root, binding, n).value == GrantedTo(journal, root, n)
    ensures GrantedTo(journal, root, n).Some? ==> Calls(journal, root, GrantedTo(journal, root, n).value) == DEFAULT_LIMIT
  {
    if n > 0 {
      GrantIsGrantedTo(journal, root, binding, n - 1);
    }
  }

  // ---------- The invariant ----------

  predicate JobOk(jobs: seq<Job>, j: nat)
    requires j < |jobs|
  {
    RootOf(jobs, j) <= j &&
    match jobs[j].parent
    case None => jobs[j].root.None? && jobs[j].kind == Proposal
    case Some(p) => p < j && jobs[j].root == Some(RootOf(jobs, p))
  }

  predicate JobsOk(jobs: seq<Job>) {
    forall j | 0 <= j < |jobs| :: JobOk(jobs, j)
  }

  predicate SameRoot(jobs: seq<Job>, i: nat, j: nat)
    requires i < |jobs| && j < |jobs|
  {
    RootOf(jobs, i) == RootOf(jobs, j)
  }

  // Job j asked for a read and was continued, or was refused and its read recovered.
  predicate GoneOn(jobs: seq<Job>, j: nat)
    requires j < |jobs|
  {
    (jobs[j].state == Succeeded && HasChild(jobs, j, false))
    || (jobs[j].state == Failed && jobs[j].failure == StructureInvalid && HasChild(jobs, j, true))
  }

  // A chain is a line: its jobs but the last have ended and were gone on from.
  predicate ChainsOk(jobs: seq<Job>) {
    forall i, j | 0 <= i < j < |jobs| && SameRoot(jobs, i, j) :: GoneOn(jobs, i)
  }

  predicate Accepted(journal: seq<Event>, bindings: nat -> Binding, root: nat) {
    Grant(journal, root, bindings(root), |journal|).Ok?
  }

  ghost predicate AllAccepted(journal: seq<Event>, bindings: nat -> Binding) {
    forall root: nat :: Accepted(journal, bindings, root)
  }

  function LimitOf(journal: seq<Event>, root: nat): nat {
    Limit(GrantedTo(journal, root, |journal|))
  }

  predicate Within(journal: seq<Event>, root: nat) {
    Calls(journal, root, |journal|) <= LimitOf(journal, root)
  }

  ghost predicate AllWithin(journal: seq<Event>) {
    forall root: nat :: Within(journal, root)
  }

  // A measure was taken in an attempt of its job, with a call left.
  predicate MeasureOk(s: State, m: Measured) {
    m.job < |s.jobs| && m.root == RootOf(s.jobs, m.job) && 1 <= m.attempt <= s.jobs[m.job].attempts
    && m.used < LimitOf(s.journal, m.root)
  }

  ghost predicate Inv(s: State, bindings: nat -> Binding) {
    && JobsOk(s.jobs) && AllAccepted(s.journal, bindings)
    && forall w | w in s.measured :: MeasureOk(s, s.measured[w])
  }

  // ---------- Appending ----------

  lemma PlainAppend(journal: seq<Event>, e: Event, bindings: nat -> Binding)
    requires AllAccepted(journal, bindings) && !e.Extended?
    ensures AllAccepted(journal + [e], bindings)
    ensures forall root: nat :: LimitOf(journal + [e], root) == LimitOf(journal, root)
  {
    forall root: nat ensures Accepted(journal + [e], bindings, root) && LimitOf(journal + [e], root) == LimitOf(journal, root) {
      assert Accepted(journal, bindings, root);
      GrantPrefix(journal, journal + [e], root, bindings(root), |journal|);
      GrantedToPrefix(journal, journal + [e], root, |journal|);
    }
  }

  lemma GrantAppend(journal: seq<Event>, e: Event, bindings: nat -> Binding)
    requires AllAccepted(journal, bindings) && e.Extended? && GrantedTo(journal, e.root, |journal|).None?
    requires ValidGrant(e, e.root, bindings(e.root), Calls(journal, e.root, |journal|))
    ensures AllAccepted(journal + [e], bindings)
    ensures forall root: nat :: LimitOf(journal + [e], root) >= LimitOf(journal, root)
  {
    forall root: nat ensures Accepted(journal + [e], bindings, root) && LimitOf(journal + [e], root) >= LimitOf(journal, root) {
      assert Accepted(journal, bindings, root);
      GrantPrefix(journal, journal + [e], root, bindings(root), |journal|);
      CallsPrefix(journal, journal + [e], root, |journal|);
      GrantIsGrantedTo(journal, root, bindings(root), |journal|);
      GrantedToPrefix(journal, journal + [e], root, |journal|);
    }
  }

  // ---------- What a step does to the jobs ----------

  // A job changed state: its root and parent are what they were.
  predicate SameLinks(was: Job, now: Job) {
    now.kind == was.kind && now.root == was.root && now.parent == was.parent && now.recovery == was.recovery && now.attempts >= was.attempts
  }

  predicate SameChain(jobs: seq<Job>, more: seq<Job>) {
    |jobs| <= |more| && forall j | 0 <= j < |jobs| :: SameLinks(jobs[j], more[j])
  }

  lemma LinksKept(jobs: seq<Job>, more: seq<Job>)
    requires JobsOk(jobs) && SameChain(jobs, more) && |jobs| == |more|
    ensures JobsOk(more)
  {
    forall k | 0 <= k < |more| ensures JobOk(more, k) {
      assert JobOk(jobs, k);
    }
  }

  // Another job at the end, of the chain of the job that enqueued it or of its own.
  predicate Joins(jobs: seq<Job>, job: Job) {
    match job.parent
    case None => job.root.None? && job.kind == Proposal
    case Some(p) => p < |jobs| && job.root == Some(RootOf(jobs, p))
  }

  lemma JoinedOk(jobs: seq<Job>, job: Job)
    requires JobsOk(jobs) && Joins(jobs, job)
    ensures JobsOk(jobs + [job]) && SameChain(jobs, jobs + [job])
  {
    forall k | 0 <= k < |jobs| + 1 ensures JobOk(jobs + [job], k) {
      if k < |jobs| {
        assert JobOk(jobs, k);
      } else if job.parent.Some? {
        assert JobOk(jobs, job.parent.value);
      }
    }
  }

  predicate Continues(step: Step) {
    step.NewProposal? || step.Read? || step.RequestSource? || step.FinishSource? || step.Recover?
  }

  // A job continued when it ends: the same jobs, one of them ended, and one more.
  lemma ContinuedOk(s: State, j: nat, kind: Kind, recovery: bool)
    requires JobsOk(s.jobs) && j < |s.jobs|
    ensures var t := Child(Finish(s, j, Succeeded, NoFailure), j, kind, recovery); JobsOk(t.jobs) && SameChain(s.jobs, t.jobs)
  {
    var f := Finish(s, j, Succeeded, NoFailure);
    LinksKept(s.jobs, f.jobs);
    JoinedOk(f.jobs, Child(f, j, kind, recovery).jobs[|f.jobs|]);
  }

  lemma ChildStep(s: State, bindings: nat -> Binding, step: Step)
    requires JobsOk(s.jobs) && Continues(step)
    ensures var t := Next(s, bindings, step); JobsOk(t.jobs) && SameChain(s.jobs, t.jobs)
  {
    match step
    case NewProposal => JoinedOk(s.jobs, Job(Proposal, None, None, Queued, None, 0, NoFailure, false));
    case Read(w, j) => if Live(s, j, w) { ContinuedOk(s, j, Proposal, false); }
    case RequestSource(w, j) => if Live(s, j, w) { ContinuedOk(s, j, SourceRead, false); }
    case FinishSource(w, j) =>
      if Live(s, j, w) {
        ContinuedOk(s, j, Proposal, false);
        LinksKept(s.jobs, Finish(s, j, Succeeded, NoFailure).jobs);
      }
    case Recover(j) =>
      if Recovered(s, j) != s {
        JoinedOk(s.jobs, Recovered(s, j).jobs[|s.jobs|]);
      }
    case _ =>
  }

  // Which job a plain step concerns.
  function JobIn(s: State, step: Step): nat {
    match step
    case Lease(_, j) => j
    case Measure(_, j, _) => j
    case Reject(_, j, _) => j
    case Succeed(_, j) => j
    case FailAs(_, j, _) => j
    case GrantMore(d, _) => d.failedJob
    case Expire(n, _) => if n in s.held then s.held[n].job else 0
    case Resume(n) => if n in s.held then s.held[n].job else 0
    case Cancel(n) => if n in s.held then s.held[n].job else 0
    case _ => 0
  }

  predicate OneChanges(jobs: seq<Job>, more: seq<Job>, j: nat) {
    j < |jobs| && |more| == |jobs| && SameLinks(jobs[j], more[j]) && more == jobs[j := more[j]]
  }

  lemma PlainStep(s: State, bindings: nat -> Binding, step: Step)
    requires !Continues(step)
    ensures var t := Next(s, bindings, step); t.jobs == s.jobs || OneChanges(s.jobs, t.jobs, JobIn(s, step))
  {
  }

  lemma JobsStep(s: State, bindings: nat -> Binding, step: Step)
    requires JobsOk(s.jobs)
    ensures var t := Next(s, bindings, step); JobsOk(t.jobs) && SameChain(s.jobs, t.jobs)
  {
    if Continues(step) {
      ChildStep(s, bindings, step);
    } else {
      PlainStep(s, bindings, step);
      LinksKept(s.jobs, Next(s, bindings, step).jobs);
    }
  }

  // ---------- What a step does to the journal and the measures ----------

  // Taken from s, perhaps checked since.
  predicate SameMeasure(was: Measured, now: Measured) {
    now == was || now == was.(checked := true)
  }

  lemma MeasuresKept(s: State, t: State)
    requires forall w | w in s.measured :: MeasureOk(s, s.measured[w])
    requires forall w | w in t.measured :: w in s.measured && SameMeasure(s.measured[w], t.measured[w])
    requires SameChain(s.jobs, t.jobs)
    requires forall root: nat :: LimitOf(t.journal, root) >= LimitOf(s.journal, root)
    ensures forall w | w in t.measured :: MeasureOk(t, t.measured[w])
  {
    forall w | w in t.measured ensures MeasureOk(t, t.measured[w]) {
      assert MeasureOk(s, s.measured[w]);
      assert SameLinks(s.jobs[s.measured[w].job], t.jobs[s.measured[w].job]);
    }
  }

  lemma RecordKeeps(s: State, bindings: nat -> Binding, w: nat)
    requires Inv(s, bindings)
    ensures Inv(RecordCall(s, w), bindings)
  {
    if w in s.measured {
      PlainAppend(s.journal, CallOf(s.measured[w]), bindings);
      MeasuresKept(s, RecordCall(s, w));
    }
  }

  // A measure of all that has been used, taken in order.
  predicate Fresh(s: State, m: Measured) {
    MeasureOk(s, m) && m.used == Calls(s.journal, m.root, |s.journal|)
  }

  // What taking a measure does.
  predicate TookMeasure(s: State, t: State) {
    t.journal == s.journal && forall v | v in t.measured :: Fresh(t, t.measured[v]) || (v in s.measured && t.measured[v] == s.measured[v])
  }

  lemma TakesMeasure(s: State, bindings: nat -> Binding, w: nat, j: nat, attempt: nat)
    requires Inv(s, bindings)
    ensures TookMeasure(s, TakeMeasure(s, bindings, w, j, attempt))
  {
    if j < |s.jobs| && s.jobs[j].kind == Proposal && 1 <= attempt <= s.jobs[j].attempts {
      var root := RootOf(s.jobs, j);
      assert Accepted(s.journal, bindings, root);
      GrantIsGrantedTo(s.journal, root, bindings(root), |s.journal|);
    }
  }

  lemma MeasureKeeps(s: State, t: State)
    requires TookMeasure(s, t) && SameChain(s.jobs, t.jobs)
    requires forall w | w in s.measured :: MeasureOk(s, s.measured[w])
    ensures forall v | v in t.measured :: MeasureOk(t, t.measured[v])
  {
    forall v | v in t.measured ensures MeasureOk(t, t.measured[v]) {
      if !Fresh(t, t.measured[v]) {
        assert MeasureOk(s, s.measured[v]);
        assert SameLinks(s.jobs[s.measured[v].job], t.jobs[s.measured[v].job]);
      }
    }
  }

  // A grant leaves every history accepted, and no chain with less than it had.
  lemma ExtendKeeps(s: State, bindings: nat -> Binding, d: Decision, authorized: bool)
    requires Inv(s, bindings)
    ensures var r := Extend(s, bindings, d, authorized);
      r.Ok? ==>
        AllAccepted(r.value.journal, bindings) && r.value.measured == s.measured
        && (forall root: nat :: LimitOf(r.value.journal, root) >= LimitOf(s.journal, root))
        && (forall root: nat :: Calls(r.value.journal, root, |r.value.journal|) == Calls(s.journal, root, |s.journal|))
  {
    var r := Extend(s, bindings, d, authorized);
    if r.Ok? && r.value.journal != s.journal {
      assert Accepted(s.journal, bindings, d.root);
      var e := Extended(d.root, d, bindings(d.root), DEFAULT_LIMIT, EXTENDED_LIMIT, DEFAULT_LIMIT, d.failedJob, true);
      assert r.value.journal == s.journal + [e];
      GrantIsGrantedTo(s.journal, d.root, bindings(d.root), |s.journal|);
      GrantAppend(s.journal, e, bindings);
      NoCallAppend(s.journal, e);
    }
  }

  lemma NoCallAppend(journal: seq<Event>, e: Event)
    requires !e.Call?
    ensures forall root: nat :: Calls(journal + [e], root, |journal + [e]|) == Calls(journal, root, |journal|)
  {
    forall root: nat ensures Calls(journal + [e], root, |journal + [e]|) == Calls(journal, root, |journal|) {
      CallsPrefix(journal, journal + [e], root, |journal|);
    }
  }

  lemma StepKeeps(s: State, bindings: nat -> Binding, step: Step)
    requires Inv(s, bindings)
    ensures Inv(Next(s, bindings, step), bindings)
  {
    JobsStep(s, bindings, step);
    var t := Next(s, bindings, step);
    if step.Record? {
      RecordKeeps(s, bindings, step.worker);
    } else if step.Measure? {
      TakesMeasure(s, bindings, step.worker, step.job, step.attempt);
      MeasureKeeps(s, t);
    } else if step.GrantMore? {
      ExtendKeeps(s, bindings, step.decision, step.authorized);
      MeasuresKept(s, t);
    } else if step.Unrelated? {
      PlainAppend(s.journal, OtherEvent, bindings);
      MeasuresKept(s, t);
    } else {
      JournalStays(s, bindings, step);
      MeasuresKept(s, t);
    }
  }

  lemma JournalStays(s: State, bindings: nat -> Binding, step: Step)
    requires !step.Record? && !step.Measure? && !step.GrantMore? && !step.Unrelated?
    ensures var t := Next(s, bindings, step);
      t.journal == s.journal && forall w | w in t.measured :: w in s.measured && SameMeasure(s.measured[w], t.measured[w])
  {
  }

  lemma JournalGrows(s: State, bindings: nat -> Binding, step: Step)
    ensures s.journal <= Next(s, bindings, step).journal
  {
  }

  // ---------- Whole runs ----------

  lemma {:induction false} RunKeeps(s: State, bindings: nat -> Binding, steps: seq<Step>)
    requires Inv(s, bindings)
    ensures Inv(After(s, bindings, steps), bindings)
    ensures s.journal <= After(s, bindings, steps).journal && SameChain(s.jobs, After(s, bindings, steps).jobs)
    decreases |steps|
  {
    if steps != [] {
      StepKeeps(s, bindings, steps[0]);
      JobsStep(s, bindings, steps[0]);
      JournalGrows(s, bindings, steps[0]);
      RunKeeps(Next(s, bindings, steps[0]), bindings, steps[1..]);
    }
  }

  lemma EmptyInv(bindings: nat -> Binding)
    ensures Inv(EMPTY, bindings)
  {
  }

  // proposal_budget accepts every history that the system can write, and finds in it the
  // one extension there is, made when exactly six calls had been used.
  lemma EveryHistoryIsAccepted(bindings: nat -> Binding, steps: seq<Step>, root: nat)
    ensures var journal := After(EMPTY, bindings, steps).journal;
      var r := BudgetOf(journal, root, bindings(root));
      r.Ok? && r.value.grant == GrantedTo(journal, root, |journal|)
      && (r.value.grant.Some? ==> Calls(journal, root, r.value.grant.value) == DEFAULT_LIMIT)
      && (forall k | 0 <= k < |journal| && journal[k].Extended? && journal[k].root == root :: r.value.grant == Some(k))
  {
    EmptyInv(bindings);
    RunKeeps(EMPTY, bindings, steps);
    var journal := After(EMPTY, bindings, steps).journal;
    assert Accepted(journal, bindings, root);
    GrantIsGrantedTo(journal, root, bindings(root), |journal|);
    OnlyGrant(journal, root, bindings(root), |journal|);
  }

  lemma {:induction false} OnlyGrant(journal: seq<Event>, root: nat, binding: Binding, n: nat)
    requires n <= |journal| && Grant(journal, root, binding, n).Ok?
    ensures forall k | 0 <= k < n && journal[k].Extended? && journal[k].root == root :: Grant(journal, root, binding, n) == Ok(Some(k))
  {
    if n > 0 {
      OnlyGrant(journal, root, binding, n - 1);
    }
  }

  // ---------- The line ----------

  lemma OpenIsLast(jobs: seq<Job>, j: nat)
    requires ChainsOk(jobs) && j < |jobs| && !GoneOn(jobs, j)
    ensures IsLast(jobs, j)
  {
    forall k | j < k < |jobs| ensures RootOf(jobs, k) != RootOf(jobs, j) {
      var _ := SameRoot(jobs, j, k);
    }
  }

  // The last job of a chain changes.
  lemma LastChanges(jobs: seq<Job>, more: seq<Job>, j: nat)
    requires ChainsOk(jobs) && OneChanges(jobs, more, j) && IsLast(jobs, j)
    ensures ChainsOk(more) && IsLast(more, j)
  {
    forall i, k | 0 <= i < k < |more| && SameRoot(more, i, k) ensures GoneOn(more, i) {
      assert SameRoot(jobs, i, k);
      assert i != j;
      StaysGone(jobs, more, i);
    }
    forall k | j < k < |more| ensures RootOf(more, k) != RootOf(more, j) {
      assert RootOf(jobs, k) != RootOf(jobs, j);
    }
  }

  lemma StaysGone(jobs: seq<Job>, more: seq<Job>, i: nat)
    requires i < |jobs| && SameChain(jobs, more) && GoneOn(jobs, i) && more[i] == jobs[i]
    ensures GoneOn(more, i)
  {
    ChildStays(jobs, more, i, true);
    ChildStays(jobs, more, i, false);
  }

  lemma ChildStays(jobs: seq<Job>, more: seq<Job>, i: nat, recovery: bool)
    requires i < |jobs| && SameChain(jobs, more)
    ensures HasChild(jobs, i, recovery) ==> HasChild(more, i, recovery)
  {
    if HasChild(jobs, i, recovery) {
      var c :| i < c < |jobs| && jobs[c].parent == Some(i) && jobs[c].recovery == recovery;
      assert more[c].parent == Some(i) && more[c].recovery == recovery;
    }
  }

  // The last job of a chain is continued by a job that makes it one gone on from.
  lemma ChildKeeps(jobs: seq<Job>, j: nat, job: Job)
    requires JobsOk(jobs) && ChainsOk(jobs) && j < |jobs| && IsLast(jobs, j)
    requires job.root == Some(RootOf(jobs, j)) && GoneOn(jobs + [job], j)
    ensures ChainsOk(jobs + [job])
  {
    var more := jobs + [job];
    forall i, k | 0 <= i < k < |more| && SameRoot(more, i, k) ensures GoneOn(more, i) {
      if i != j {
        var last := if k < |jobs| then k else j;
        assert RootOf(jobs, last) == RootOf(jobs, i);
        assert i < j || k < |jobs|;
        assert SameRoot(jobs, i, last);
        StaysGone(jobs, more, i);
      }
    }
  }

  lemma NewRootKeeps(jobs: seq<Job>, job: Job)
    requires JobsOk(jobs) && ChainsOk(jobs) && job.root.None?
    ensures ChainsOk(jobs + [job])
  {
    var more := jobs + [job];
    forall i, k | 0 <= i < k < |more| && SameRoot(more, i, k) ensures GoneOn(more, i) {
      assert JobOk(jobs, i);
      assert k < |jobs| && SameRoot(jobs, i, k);
      StaysGone(jobs, more, i);
    }
  }

  lemma HasLastChild(jobs: seq<Job>, j: nat)
    requires |jobs| > 0 && j < |jobs| - 1 && jobs[|jobs| - 1].parent == Some(j)
    ensures HasChild(jobs, j, jobs[|jobs| - 1].recovery)
  {
  }

  // A live job succeeds and is continued in one transaction.
  lemma ContinueKeeps(s: State, j: nat, w: nat, kind: Kind)
    requires JobsOk(s.jobs) && ChainsOk(s.jobs) && Live(s, j, w)
    ensures ChainsOk(Child(Finish(s, j, Succeeded, NoFailure), j, kind, false).jobs)
  {
    var f := Finish(s, j, Succeeded, NoFailure);
    OpenIsLast(s.jobs, j);
    LinksKept(s.jobs, f.jobs);
    LastChanges(s.jobs, f.jobs, j);
    HasLastChild(Child(f, j, kind, false).jobs, j);
    ChildKeeps(f.jobs, j, Child(f, j, kind, false).jobs[|f.jobs|]);
  }

  lemma RecoverKeeps(s: State, j: nat)
    requires JobsOk(s.jobs) && ChainsOk(s.jobs)
    ensures ChainsOk(Recovered(s, j).jobs)
  {
    var t := Recovered(s, j);
    if t != s {
      OpenIsLast(s.jobs, j);
      HasLastChild(t.jobs, j);
      ChildKeeps(s.jobs, j, t.jobs[|s.jobs|]);
    }
  }

  lemma FinishKeeps(s: State, j: nat, w: nat)
    requires JobsOk(s.jobs) && ChainsOk(s.jobs) && Live(s, j, w)
    ensures ChainsOk(SourceFinished(s, j).jobs)
  {
    ContinueKeeps(s, j, w, Proposal);
    OpenIsLast(s.jobs, j);
    LastChanges(s.jobs, Finish(s, j, Succeeded, NoFailure).jobs, j);
  }

  lemma ContinuingKeepsTheLine(s: State, bindings: nat -> Binding, step: Step)
    requires JobsOk(s.jobs) && ChainsOk(s.jobs) && Continues(step)
    ensures ChainsOk(Next(s, bindings, step).jobs)
  {
    match step
    case NewProposal => NewRootKeeps(s.jobs, Job(Proposal, None, None, Queued, None, 0, NoFailure, false));
    case Read(w, j) => if Live(s, j, w) { ContinueKeeps(s, j, w, Proposal); }
    case RequestSource(w, j) => if Live(s, j, w) { ContinueKeeps(s, j, w, SourceRead); }
    case FinishSource(w, j) => if Live(s, j, w) { FinishKeeps(s, j, w); }
    case Recover(j) => RecoverKeeps(s, j);
    case _ =>
  }

  // What waits, runs or is extended has not been gone on from.
  lemma OpenOnes(s: State, bindings: nat -> Binding, step: Step)
    requires !Continues(step) && !OfRow(step) && Next(s, bindings, step).jobs != s.jobs
    ensures JobIn(s, step) < |s.jobs| && !GoneOn(s.jobs, JobIn(s, step))
  {
  }

  lemma WriteTouchesItsRow(s: State, bindings: nat -> Binding, step: Step)
    requires OfRow(step) && Next(s, bindings, step).jobs != s.jobs
    ensures Holds(s, step.session) && Writes(step, s.held[step.session]).Some? && JobIn(s, step) == s.held[step.session].job
  {
  }

  // What is written is a state that no chain goes on from.
  lemma WriteUndoes(s: State, bindings: nat -> Binding, step: Step)
    requires OfRow(step) && Holds(s, step.session) && Writes(step, s.held[step.session]).Some?
    ensures var j := s.held[step.session].job;
      OneChanges(s.jobs, Next(s, bindings, step).jobs, j) && !GoneOn(Next(s, bindings, step).jobs, j)
  {
  }

  lemma PlainKeepsTheLine(s: State, bindings: nat -> Binding, step: Step)
    requires ChainsOk(s.jobs) && !Continues(step) && !Reopens(s, step)
    ensures ChainsOk(Next(s, bindings, step).jobs)
  {
    PlainStep(s, bindings, step);
    if Next(s, bindings, step).jobs != s.jobs {
      if OfRow(step) {
        WriteTouchesItsRow(s, bindings, step);
      } else {
        OpenOnes(s, bindings, step);
        OpenIsLast(s.jobs, JobIn(s, step));
      }
      LastChanges(s.jobs, Next(s, bindings, step).jobs, JobIn(s, step));
    }
  }

  lemma LineStep(s: State, bindings: nat -> Binding, step: Step)
    requires JobsOk(s.jobs) && ChainsOk(s.jobs)
    ensures ChainsOk(Next(s, bindings, step).jobs) <==> !Reopens(s, step)
  {
    if Reopens(s, step) {
      WriteUndoes(s, bindings, step);
      var t := Next(s, bindings, step);
      var j := s.held[step.session].job;
      var k :| j < k < |s.jobs| && RootOf(s.jobs, k) == RootOf(s.jobs, j);
      assert SameRoot(t.jobs, j, k);
    } else if Continues(step) {
      ContinuingKeepsTheLine(s, bindings, step);
    } else {
      PlainKeepsTheLine(s, bindings, step);
    }
  }

  lemma {:induction false} LineKept(s: State, bindings: nat -> Binding, steps: seq<Step>)
    requires Inv(s, bindings) && ChainsOk(s.jobs) && NeverReopened(s, bindings, steps)
    ensures ChainsOk(After(s, bindings, steps).jobs)
    decreases |steps|
  {
    if steps != [] {
      StepKeeps(s, bindings, steps[0]);
      LineStep(s, bindings, steps[0]);
      LineKept(Next(s, bindings, steps[0]), bindings, steps[1..]);
    }
  }

  // While no session reopens a job, every job of a chain but the last has ended and was
  // gone on from: it succeeded and was continued, or its refused read was recovered. So at
  // most one job of a chain waits or runs. A step ends that exactly when it reopens a job.
  lemma ChainIsALine(bindings: nat -> Binding, steps: seq<Step>, i: nat, j: nat, step: Step)
    requires NeverReopened(EMPTY, bindings, steps)
    requires i < j < |After(EMPTY, bindings, steps).jobs| && SameRoot(After(EMPTY, bindings, steps).jobs, i, j)
    ensures var s := After(EMPTY, bindings, steps);
      GoneOn(s.jobs, i) && (ChainsOk(Next(s, bindings, step).jobs) <==> !Reopens(s, step))
  {
    EmptyInv(bindings);
    RunKeeps(EMPTY, bindings, steps);
    LineKept(EMPTY, bindings, steps);
    LineStep(After(EMPTY, bindings, steps), bindings, step);
  }

  // A session whose row is still as it was read reopens a job only by resuming one that
  // was refused with attempts left and whose read has been recovered.
  lemma UndisturbedReopensIff(bindings: nat -> Binding, steps: seq<Step>, step: Step)
    requires NeverReopened(EMPTY, bindings, steps) && OfRow(step)
    requires var s := After(EMPTY, bindings, steps);
      Holds(s, step.session) && s.held[step.session].row == s.jobs[s.held[step.session].job]
    ensures var s := After(EMPTY, bindings, steps);
      var j := s.held[step.session].job;
      Reopens(s, step) <==>
        step.Resume? && s.held[step.session].passed && s.jobs[j].attempts < MaxAttempts(s.jobs[j].kind)
        && s.jobs[j].state == Failed && s.jobs[j].failure == StructureInvalid && HasChild(s.jobs, j, true)
  {
    EmptyInv(bindings);
    RunKeeps(EMPTY, bindings, steps);
    LineKept(EMPTY, bindings, steps);
    var s := After(EMPTY, bindings, steps);
    var j := s.held[step.session].job;
    if Reopens(s, step) && !GoneOn(s.jobs, j) {
      OpenIsLast(s.jobs, j);
    }
    if HasChild(s.jobs, j, true) {
      ChildIsOfTheChain(s.jobs, j);
    }
  }

  lemma ChildIsOfTheChain(jobs: seq<Job>, j: nat)
    requires JobsOk(jobs) && j < |jobs| && HasChild(jobs, j, true)
    ensures !IsLast(jobs, j)
  {
    var c :| j < c < |jobs| && jobs[c].parent == Some(j) && jobs[c].recovery;
    assert JobOk(jobs, c);
    assert RootOf(jobs, c) == RootOf(jobs, j);
  }

  // ---------- The bound ----------

  // The chain has made no more calls than its limit and c, and none but c since a worker
  // whose attempt is current took its measure.
  ghost predicate Bounded(s: State, root: nat, c: nat) {
    && Calls(s.journal, root, |s.journal|) <= LimitOf(s.journal, root) + c
    && forall w | w in s.measured && s.measured[w].root == root && Current(s, w, s.measured[w]) ::
         Calls(s.journal, root, |s.journal|) <= s.measured[w].used + c
  }

  lemma CallAppend(journal: seq<Event>, e: Event, root: nat)
    requires e.Call?
    ensures Calls(journal + [e], root, |journal + [e]|) == Calls(journal, root, |journal|) + if e.root == root then 1 else 0
  {
    CallsPrefix(journal, journal + [e], root, |journal|);
  }

  // A call that another measure of the chain may not have counted.
  function UncountedNow(s: State, step: Step, root: nat): nat {
    if (Lapsed(s, step) || Rivalled(s, step)) && s.measured[step.worker].root == root then 1 else 0
  }

  lemma RecordBound(s: State, bindings: nat -> Binding, w: nat, root: nat, c: nat)
    requires Inv(s, bindings) && Bounded(s, root, c)
    ensures Bounded(RecordCall(s, w), root, c + UncountedNow(s, Record(w), root))
  {
    if NewCall(s, Record(w)) {
      var e, m := CallOf(s.measured[w]), s.measured[w];
      var t := RecordCall(s, w);
      assert MeasureOk(s, m);
      CallAppend(s.journal, e, root);
      PlainAppend(s.journal, e, bindings);
      forall v | v in t.measured && t.measured[v].root == root && Current(t, v, t.measured[v])
        ensures Calls(t.journal, root, |t.journal|) <= t.measured[v].used + c + UncountedNow(s, Record(w), root)
      {
        assert v in s.measured && v != w && Current(s, v, s.measured[v]);
      }
    }
  }

  // A lease begins a new attempt, so that no earlier measure is current in it.
  lemma CurrentBefore(s: State, bindings: nat -> Binding, step: Step, w: nat)
    requires Inv(s, bindings) && !step.Measure? && w in Next(s, bindings, step).measured
    requires Current(Next(s, bindings, step), w, Next(s, bindings, step).measured[w])
    ensures w in s.measured && SameMeasure(s.measured[w], Next(s, bindings, step).measured[w]) && Current(s, w, s.measured[w])
  {
    MeasuresBefore(s, bindings, step, w);
    assert MeasureOk(s, s.measured[w]);
    var j := s.measured[w].job;
    JobBefore(s, bindings, step, j);
  }

  lemma MeasuresBefore(s: State, bindings: nat -> Binding, step: Step, w: nat)
    requires !step.Measure? && w in Next(s, bindings, step).measured
    ensures w in s.measured && SameMeasure(s.measured[w], Next(s, bindings, step).measured[w])
  {
  }

  // Only a lease sets a job running, and counts an attempt.
  predicate StillRuns(was: Job, now: Job) {
    now.state == Running && now.attempts <= was.attempts ==> now.owner == was.owner && was.state == Running && now.attempts == was.attempts
  }

  lemma JobBefore(s: State, bindings: nat -> Binding, step: Step, j: nat)
    requires j < |s.jobs| && j < |Next(s, bindings, step).jobs|
    ensures StillRuns(s.jobs[j], Next(s, bindings, step).jobs[j])
  {
    if OfRow(step) {
      RowBefore(s, step, j);
    } else if Continues(step) {
      ContinuedBefore(s, bindings, step, j);
    } else {
      PlainBefore(s, bindings, step, j);
    }
  }

  lemma RowBefore(s: State, step: Step, j: nat)
    requires j < |s.jobs| && OfRow(step)
    ensures |WriteRow(s, step).jobs| == |s.jobs| && StillRuns(s.jobs[j], WriteRow(s, step).jobs[j])
  {
  }

  lemma ContinuedBefore(s: State, bindings: nat -> Binding, step: Step, j: nat)
    requires j < |s.jobs| && Continues(step)
    ensures var t := Next(s, bindings, step); j < |t.jobs| && StillRuns(s.jobs[j], t.jobs[j])
  {
  }

  lemma PlainBefore(s: State, bindings: nat -> Binding, step: Step, j: nat)
    requires j < |s.jobs| && !OfRow(step) && !Continues(step)
    ensures var t := Next(s, bindings, step); |t.jobs| == |s.jobs| && StillRuns(s.jobs[j], t.jobs[j])
  {
  }

  lemma MeasureBound(s: State, t: State, root: nat, c: nat)
    requires Bounded(s, root, c) && TookMeasure(s, t)
    requires forall w, m | Current(t, w, m) && m.job < |s.jobs| :: Current(s, w, m)
    requires forall w | w in s.measured :: MeasureOk(s, s.measured[w])
    ensures Bounded(t, root, c)
  {
    forall v | v in t.measured && t.measured[v].root == root && Current(t, v, t.measured[v])
      ensures Calls(t.journal, root, |t.journal|) <= t.measured[v].used + c
    {
      if !Fresh(t, t.measured[v]) {
        assert MeasureOk(s, s.measured[v]);
        assert Current(s, v, s.measured[v]);
      }
    }
  }

  lemma MeasuringStartsNothing(s: State, bindings: nat -> Binding, step: Step, w: nat, m: Measured)
    requires step.Measure? && m.job < |s.jobs| && Current(Next(s, bindings, step), w, m)
    ensures Current(s, w, m)
  {
    JobBefore(s, bindings, step, m.job);
    AttemptsStay(s, bindings, step, m.job);
  }

  lemma AttemptsStay(s: State, bindings: nat -> Binding, step: Step, j: nat)
    requires step.Measure? && j < |s.jobs|
    ensures |Next(s, bindings, step).jobs| == |s.jobs| && Next(s, bindings, step).jobs[j].attempts == s.jobs[j].attempts
  {
  }

  lemma StepBound(s: State, bindings: nat -> Binding, step: Step, root: nat, c: nat)
    requires Inv(s, bindings) && Bounded(s, root, c)
    ensures Bounded(Next(s, bindings, step), root, c + UncountedNow(s, step, root))
  {
    if step.Record? {
      RecordBound(s, bindings, step.worker, root, c);
    } else if step.Measure? {
      TakesMeasure(s, bindings, step.worker, step.job, step.attempt);
      forall w, m | Current(Next(s, bindings, step), w, m) && m.job < |s.jobs| ensures Current(s, w, m) {
        MeasuringStartsNothing(s, bindings, step, w, m);
      }
      MeasureBound(s, Next(s, bindings, step), root, c);
    } else {
      UsageStays(s, bindings, step, root);
      var t := Next(s, bindings, step);
      forall w | w in t.measured && t.measured[w].root == root && Current(t, w, t.measured[w])
        ensures Calls(t.journal, root, |t.journal|) <= t.measured[w].used + c
      {
        CurrentBefore(s, bindings, step, w);
      }
    }
  }

  lemma UsageStays(s: State, bindings: nat -> Binding, step: Step, root: nat)
    requires Inv(s, bindings) && !step.Record? && !step.Measure?
    ensures var t := Next(s, bindings, step);
      Calls(t.journal, root, |t.journal|) == Calls(s.journal, root, |s.journal|) && LimitOf(t.journal, root) >= LimitOf(s.journal, root)
  {
    if step.GrantMore? {
      ExtendKeeps(s, bindings, step.decision, step.authorized);
    } else if step.Unrelated? {
      PlainAppend(s.journal, OtherEvent, bindings);
      NoCallAppend(s.journal, OtherEvent);
    } else {
      JournalStays(s, bindings, step);
    }
  }

  lemma {:induction false} RunBound(s: State, bindings: nat -> Binding, steps: seq<Step>, root: nat, c: nat)
    requires Inv(s, bindings) && Bounded(s, root, c)
    ensures Bounded(After(s, bindings, steps), root, c + LapsedCalls(s, bindings, steps, root) + RivalledCalls(s, bindings, steps, root))
    decreases |steps|
  {
    if steps != [] {
      StepKeeps(s, bindings, steps[0]);
      StepBound(s, bindings, steps[0], root, c);
      RunBound(Next(s, bindings, steps[0]), bindings, steps[1..], root, c + UncountedNow(s, steps[0], root));
    }
  }

  // In every run, a chain exceeds its budget by no more than the calls that were journaled
  // by a worker whose measured attempt was over, or while another worker that is current
  // held a measure of the chain.
  lemma OverrunsAreLapsedOrRivalled(bindings: nat -> Binding, steps: seq<Step>, root: nat)
    ensures var journal := After(EMPTY, bindings, steps).journal;
      Calls(journal, root, |journal|)
      <= (if GrantedTo(journal, root, |journal|).Some? then 8 else 6)
         + LapsedCalls(EMPTY, bindings, steps, root) + RivalledCalls(EMPTY, bindings, steps, root)
  {
    EmptyInv(bindings);
    RunBound(EMPTY, bindings, steps, root, 0);
  }

  // Only one job of a line runs, so only one worker is current in it.
  lemma OneCurrent(s: State, bindings: nat -> Binding, step: Step)
    requires Inv(s, bindings) && ChainsOk(s.jobs)
    ensures !Rivalled(s, step)
  {
    if Rivalled(s, step) {
      var w := step.worker;
      var v :| v in s.measured && v != w && s.measured[v].root == s.measured[w].root && Current(s, v, s.measured[v]);
      assert MeasureOk(s, s.measured[w]) && MeasureOk(s, s.measured[v]);
      var i, j := s.measured[w].job, s.measured[v].job;
      assert SameRoot(s.jobs, i, j) && SameRoot(s.jobs, j, i);
    }
  }

  lemma {:induction false} FencedBound(s: State, bindings: nat -> Binding, steps: seq<Step>, root: nat)
    requires Inv(s, bindings) && ChainsOk(s.jobs) && Fenced(s, bindings, steps) && NeverReopened(s, bindings, steps)
    ensures LapsedCalls(s, bindings, steps, root) == 0 && RivalledCalls(s, bindings, steps, root) == 0
    decreases |steps|
  {
    if steps != [] {
      OneCurrent(s, bindings, steps[0]);
      StepKeeps(s, bindings, steps[0]);
      LineStep(s, bindings, steps[0]);
      FencedBound(Next(s, bindings, steps[0]), bindings, steps[1..], root);
    }
  }

  // A chain makes at most six calls, or at most eight after its one extension, in every
  // run whose calls are journaled only in the attempt they were measured for and whose
  // sessions write over no job that its chain has gone on from.
  lemma ChainStaysWithinItsBudget(bindings: nat -> Binding, steps: seq<Step>, root: nat)
    requires Fenced(EMPTY, bindings, steps) && NeverReopened(EMPTY, bindings, steps)
    ensures var journal := After(EMPTY, bindings, steps).journal;
      Calls(journal, root, |journal|) <= if GrantedTo(journal, root, |journal|).Some? then 8 else 6
  {
    EmptyInv(bindings);
    OverrunsAreLapsedOrRivalled(bindings, steps, root);
    FencedBound(EMPTY, bindings, steps, root);
  }

  // Every session finds the row that it writes as it has read it, and none resumes a
  // refused draft.
  predicate Undisturbed(s: State, bindings: nat -> Binding, steps: seq<Step>)
    decreases |steps|
  {
    steps == [] || (AsRead(s, steps[0]) && Undisturbed(Next(s, bindings, steps[0]), bindings, steps[1..]))
  }

  predicate AsRead(s: State, step: Step) {
    OfRow(step) && Holds(s, step.session) ==>
      var h := s.held[step.session];
      h.row == s.jobs[h.job] && !(step.Resume? && h.row.state == Failed && h.row.failure == StructureInvalid)
  }

  lemma {:induction false} UndisturbedReopensNone(s: State, bindings: nat -> Binding, steps: seq<Step>)
    requires Inv(s, bindings) && ChainsOk(s.jobs) && Undisturbed(s, bindings, steps)
    ensures NeverReopened(s, bindings, steps)
    decreases |steps|
  {
    if steps != [] {
      if Reopens(s, steps[0]) && !GoneOn(s.jobs, s.held[steps[0].session].job) {
        OpenIsLast(s.jobs, s.held[steps[0].session].job);
      }
      StepKeeps(s, bindings, steps[0]);
      LineStep(s, bindings, steps[0]);
      UndisturbedReopensNone(Next(s, bindings, steps[0]), bindings, steps[1..]);
    }
  }

  // So both fences hold if appends ask for the attempt, write-backs for the row as it was
  // read, and a refused draft is recovered but not resumed.
  lemma UndisturbedChainStaysWithin(bindings: nat -> Binding, steps: seq<Step>, root: nat)
    requires Fenced(EMPTY, bindings, steps) && Undisturbed(EMPTY, bindings, steps)
    ensures var journal := After(EMPTY, bindings, steps).journal;
      Calls(journal, root, |journal|) <= if GrantedTo(journal, root, |journal|).Some? then 8 else 6
  {
    EmptyInv(bindings);
    UndisturbedReopensNone(EMPTY, bindings, steps);
    ChainStaysWithinItsBudget(bindings, steps, root);
  }

  // proposal_budget would find that the chain has no call left.
  predicate Spent(journal: seq<Event>, root: nat, binding: Binding) {
    var budget := BudgetOf(journal, root, binding);
    budget.Ok? && budget.value.remaining == 0
  }

  predicate Overruns(s: State, bindings: nat -> Binding, step: Step, root: nat) {
    NewCall(s, step) && s.measured[step.worker].root == root && Spent(s.journal, root, bindings(root))
  }

  // In every run, a step takes a chain that is within its budget over it exactly when it
  // journals a call of a spent chain, by a worker whose measured attempt is over or one
  // that is current and has not measured all its chain's calls. Of the second kind there
  // is none in a run that keeps to both fences.
  lemma FirstOverrunIff(bindings: nat -> Binding, steps: seq<Step>, step: Step, root: nat)
    requires Within(After(EMPTY, bindings, steps).journal, root)
    ensures var s := After(EMPTY, bindings, steps);
      !Within(Next(s, bindings, step).journal, root) <==>
        (Lapsed(s, step) || Outpaced(s, step)) && s.measured[step.worker].root == root && Spent(s.journal, root, bindings(root))
    ensures Fenced(EMPTY, bindings, steps) && NeverReopened(EMPTY, bindings, steps) ==> !Outpaced(After(EMPTY, bindings, steps), step)
  {
    EmptyInv(bindings);
    RunKeeps(EMPTY, bindings, steps);
    var s := After(EMPTY, bindings, steps);
    OverrunIff(s, bindings, step, root);
    if Overruns(s, bindings, step, root) {
      SpentIsOutpaced(s, bindings, step);
    }
    if Outpaced(s, step) && Fenced(EMPTY, bindings, steps) && NeverReopened(EMPTY, bindings, steps) {
      var chain := s.measured[step.worker].root;
      RunBound(EMPTY, bindings, steps, chain, 0);
      FencedBound(EMPTY, bindings, steps, chain);
      assert false;
    }
  }

  lemma OverrunIff(s: State, bindings: nat -> Binding, step: Step, root: nat)
    requires Inv(s, bindings) && Within(s.journal, root)
    ensures !Within(Next(s, bindings, step).journal, root) <==> Overruns(s, bindings, step, root)
  {
    if NewCall(s, step) {
      var e := CallOf(s.measured[step.worker]);
      CallAppend(s.journal, e, root);
      PlainAppend(s.journal, e, bindings);
      assert LimitOf(s.journal + [e], root) == LimitOf(s.journal, root);
      assert Accepted(s.journal, bindings, root);
      GrantIsGrantedTo(s.journal, root, bindings(root), |s.journal|);
    } else if step.Record? || step.Measure? {
      assert Next(s, bindings, step).journal == s.journal;
    } else {
      UsageStays(s, bindings, step, root);
    }
  }

  // A current worker measured a call left, so of a spent chain it has missed one.
  lemma SpentIsOutpaced(s: State, bindings: nat -> Binding, step: Step)
    requires Inv(s, bindings) && NewCall(s, step)
      && Spent(s.journal, s.measured[step.worker].root, bindings(s.measured[step.worker].root))
    ensures Lapsed(s, step) || Outpaced(s, step)
  {
    var m := s.measured[step.worker];
    assert MeasureOk(s, m);
    assert Accepted(s.journal, bindings, m.root);
    GrantIsGrantedTo(s.journal, m.root, bindings(m.root), |s.journal|);
  }

  // After an accepted extension, in every later state, the same decision changes nothing
  // and any other for that chain is refused.
  lemma ExtendedOnce(bindings: nat -> Binding, steps: seq<Step>, d: Decision, authorized: bool, more: seq<Step>, again: Decision, later: bool)
    requires Extend(After(EMPTY, bindings, steps), bindings, d, authorized).Ok? && again.root == d.root
    ensures var t := Extend(After(EMPTY, bindings, steps), bindings, d, authorized).value;
      var u := After(t, bindings, more);
      Extend(u, bindings, again, later) == if again == d then Ok(u) else Err(Differs)
  {
    EmptyInv(bindings);
    RunKeeps(EMPTY, bindings, steps);
    var s := After(EMPTY, bindings, steps);
    StepKeeps(s, bindings, GrantMore(d, authorized));
    JobsStep(s, bindings, GrantMore(d, authorized));
    var t := Next(s, bindings, GrantMore(d, authorized));
    var k := Granted(s, bindings, d, authorized);
    RunKeeps(t, bindings, more);
    var u := After(t, bindings, more);
    assert u.journal[k] == t.journal[k];
    assert Accepted(u.journal, bindings, d.root);
    GrantIsGrantedTo(u.journal, d.root, bindings(d.root), |u.journal|);
    OnlyGrant(u.journal, d.root, bindings(d.root), |u.journal|);
    RootStays(s.jobs, t.jobs, d.root);
    RootStays(t.jobs, u.jobs, d.root);
  }

  lemma RootStays(jobs: seq<Job>, more: seq<Job>, root: nat)
    requires IsRoot(jobs, root) && SameChain(jobs, more)
    ensures IsRoot(more, root)
  {
    assert SameLinks(jobs[root], more[root]);
  }

  // Where the decision that was accepted is journaled.
  lemma Granted(s: State, bindings: nat -> Binding, d: Decision, authorized: bool) returns (k: nat)
    requires Extend(s, bindings, d, authorized).Ok?
    ensures var journal := Extend(s, bindings, d, authorized).value.journal;
      k < |journal| && journal[k].Extended? && journal[k].root == d.root && journal[k].request == d
  {
    var existing := GrantedTo(s.journal, d.root, |s.journal|);
    k := if existing.Some? then existing.value else |s.journal|;
  }

  // Usage never falls, nor does the limit: neither retries, reads nor an extension reset it.
  lemma UsageNeverFalls(bindings: nat -> Binding, steps: seq<Step>, more: seq<Step>, root: nat)
    ensures var s := After(EMPTY, bindings, steps);
      var t := After(s, bindings, more);
      Calls(s.journal, root, |s.journal|) <= Calls(t.journal, root, |t.journal|)
      && LimitOf(s.journal, root) <= LimitOf(t.journal, root)
  {
    EmptyInv(bindings);
    RunKeeps(EMPTY, bindings, steps);
    var s := After(EMPTY, bindings, steps);
    RunKeeps(s, bindings, more);
    var t := After(s, bindings, more);
    CallsPrefix(s.journal, t.journal, root, |s.journal|);
    CallsGrow(t.journal, root, |s.journal|, |t.journal|);
    GrantedToPrefix(s.journal, t.journal, root, |s.journal|);
    GrantedToGrows(t.journal, root, |s.journal|, |t.journal|);
  }

  lemma {:induction false} CallsGrow(journal: seq<Event>, root: nat, n: nat, m: nat)
    requires n <= m <= |journal|
    ensures Calls(journal, root, n) <= Calls(journal, root, m)
  {
    if n < m {
      CallsGrow(journal, root, n, m - 1);
    }
  }

  lemma {:induction false} GrantedToGrows(journal: seq<Event>, root: nat, n: nat, m: nat)
    requires n <= m <= |journal|
    ensures GrantedTo(journal, root, n).Some? ==> GrantedTo(journal, root, m).Some?
  {
    if n < m {
      GrantedToGrows(journal, root, n, m - 1);
    }
  }

  // ---------- Roots ----------

  // The job a chain began with: the last of the parents.
  function Origin(jobs: seq<Job>, j: nat): nat
    requires JobsOk(jobs) && j < |jobs|
    decreases j
  {
    assert JobOk(jobs, j);
    match jobs[j].parent
    case None => j
    case Some(p) => Origin(jobs, p)
  }

  lemma {:induction false} RootIsOrigin(jobs: seq<Job>, j: nat)
    requires JobsOk(jobs) && j < |jobs|
    ensures RootOf(jobs, j) == Origin(jobs, j) && IsRoot(jobs, RootOf(jobs, j))
    decreases j
  {
    assert JobOk(jobs, j);
    if jobs[j].parent.Some? {
      RootIsOrigin(jobs, jobs[j].parent.value);
    }
  }

  // The root job id carried through every read, continuation and recovery is the job the
  // chain began with, and it never changes.
  lemma RootIsCarriedThrough(bindings: nat -> Binding, steps: seq<Step>, more: seq<Step>, j: nat)
    requires j < |After(EMPTY, bindings, steps).jobs|
    ensures var s := After(EMPTY, bindings, steps);
      var t := After(s, bindings, more);
      JobsOk(s.jobs) && RootOf(s.jobs, j) == Origin(s.jobs, j) && IsRoot(s.jobs, RootOf(s.jobs, j))
      && j < |t.jobs| && RootOf(t.jobs, j) == RootOf(s.jobs, j)
  {
    EmptyInv(bindings);
    RunKeeps(EMPTY, bindings, steps);
    var s := After(EMPTY, bindings, steps);
    RootIsOrigin(s.jobs, j);
    RunKeeps(s, bindings, more);
  }

  // ---------- A run that is disturbed ----------

  function ChainJob(i: nat, state: JobState): Job {
    Job(Proposal, if i == 0 then None else Some(0), if i == 0 then None else Some(i - 1), state, None,
        if state == Succeeded then 1 else 0, NoFailure, false)
  }

  // k jobs that each made one call and asked for a read, and the next one, queued.
  function Chain(k: nat): State {
    State(seq(k + 1, i requires 0 <= i => ChainJob(i, if i < k then Succeeded else Queued)),
          seq(k, i requires 0 <= i => Call(0, i, 1)), map[], map[])
  }

  lemma {:induction false} ChainCalls(k: nat, n: nat)
    requires n <= k
    ensures Calls(Chain(k).journal, 0, n) == n && forall binding :: Grant(Chain(k).journal, 0, binding, n) == Ok(None)
  {
    if n > 0 {
      ChainCalls(k, n - 1);
    }
  }

  lemma {:induction false} OneMore(s: State, bindings: nat -> Binding, steps: seq<Step>, step: Step)
    ensures After(s, bindings, steps + [step]) == Next(After(s, bindings, steps), bindings, step)
    ensures Fenced(s, bindings, steps + [step]) <==> Fenced(s, bindings, steps) && !Lapsed(After(s, bindings, steps), step)
    decreases |steps|
  {
    if steps == [] {
      assert steps + [step] == [step] && [step][1..] == [];
    } else {
      assert (steps + [step])[1..] == steps[1..] + [step];
      OneMore(Next(s, bindings, steps[0]), bindings, steps[1..], step);
    }
  }

  // The last job of the chain, leased by worker w for its a-th attempt.
  function Leased(k: nat, w: nat, a: nat): State {
    Chain(k).(jobs := Chain(k).jobs[k := ChainJob(k, Running).(owner := Some(w), attempts := a)])
  }

  lemma LeaseStep(k: nat, bindings: nat -> Binding)
    ensures Next(Chain(k), bindings, Lease(0, k)) == Leased(k, 0, 1)
  {
    assert Chain(k).jobs[k] == ChainJob(k, Queued);
  }

  // A measure of k calls by job j, checked.
  function Checked(j: nat, a: nat, k: nat): Measured {
    Measured(j, a, 0, k, true)
  }

  lemma MeasureStep(s: State, k: nat, bindings: nat -> Binding, w: nat, j: nat, a: nat)
    requires k < 6 && 1 <= a && Live(s, j, w) && s.jobs[j].attempts == a && s.jobs[j].kind == Proposal && RootOf(s.jobs, j) == 0
    requires s.journal == Chain(k).journal
    ensures Next(Next(s, bindings, Measure(w, j, a)), bindings, Check(w)) == s.(measured := s.measured[w := Checked(j, a, k)])
  {
    ChainCalls(k, k);
    assert Next(s, bindings, Measure(w, j, a)) == s.(measured := s.measured[w := Measured(j, a, 0, k, false)]);
  }

  lemma ReadStep(k: nat, bindings: nat -> Binding, held: map<nat, Held>)
    ensures Next(Leased(k, 0, 1).(journal := Chain(k + 1).journal, held := held), bindings, Read(0, k)) == Chain(k + 1).(held := held)
  {
    var s := Leased(k, 0, 1).(journal := Chain(k + 1).journal, held := held);
    assert RootOf(s.jobs, k) == 0;
    var jobs := Next(s, bindings, Read(0, k)).jobs;
    assert |jobs| == k + 2 && jobs[k + 1] == ChainJob(k + 1, Queued) && jobs[k] == ChainJob(k, Succeeded);
    assert jobs == Chain(k + 1).jobs;
  }

  lemma RecordStep(s: State, bindings: nat -> Binding, w: nat, j: nat, a: nat, k: nat)
    requires w in s.measured && s.measured[w] == Checked(j, a, k) && Call(0, j, a) !in s.journal
    ensures Next(s, bindings, Record(w)) == s.(measured := s.measured - {w}, journal := s.journal + [Call(0, j, a)])
  {
  }

  // The last job leased, its call made and journaled.
  lemma CallMade(k: nat, bindings: nat -> Binding, before: seq<Step>) returns (steps: seq<Step>)
    requires k < 6 && After(EMPTY, bindings, before) == Chain(k) && Fenced(EMPTY, bindings, before)
    ensures After(EMPTY, bindings, steps) == Leased(k, 0, 1).(journal := Chain(k + 1).journal) && Fenced(EMPTY, bindings, steps)
  {
    steps := before;
    var s := Leased(k, 0, 1);
    OneMore(EMPTY, bindings, steps, Lease(0, k)); steps := steps + [Lease(0, k)];
    LeaseStep(k, bindings);
    OneMore(EMPTY, bindings, steps, Measure(0, k, 1)); steps := steps + [Measure(0, k, 1)];
    OneMore(EMPTY, bindings, steps, Check(0)); steps := steps + [Check(0)];
    MeasureStep(s, k, bindings, 0, k, 1);
    OneMore(EMPTY, bindings, steps, Record(0)); steps := steps + [Record(0)];
    assert Call(0, k, 1) !in Chain(k).journal;
    RecordStep(s.(measured := map[0 := Checked(k, 1, k)]), bindings, 0, k, 1, k);
    assert Chain(k).journal + [Call(0, k, 1)] == Chain(k + 1).journal;
    assert map[0 := Checked(k, 1, k)] - {0} == map[];
  }

  lemma {:induction false} ReachesChain(k: nat, bindings: nat -> Binding) returns (steps: seq<Step>)
    requires k <= 6
    ensures After(EMPTY, bindings, steps) == Chain(k) && Fenced(EMPTY, bindings, steps)
  {
    if k == 0 {
      steps := [NewProposal];
      OneMore(EMPTY, bindings, [], NewProposal);
      assert [] + [NewProposal] == steps;
      assert Chain(0).jobs == [ChainJob(0, Queued)];
      assert Next(EMPTY, bindings, NewProposal).jobs == [ChainJob(0, Queued)];
      assert Chain(0).journal == [];
    } else {
      steps := ReachesChain(k - 1, bindings);
      steps := CallMade(k - 1, bindings, steps);
      OneMore(EMPTY, bindings, steps, Read(0, k - 1)); steps := steps + [Read(0, k - 1)];
      ReadStep(k - 1, bindings, map[]);
    }
  }

  // ---------- A worker that lost its lease ----------

  // The last job was requeued when its lease ran out, and leased again.
  function Requeued(k: nat, state: JobState, owner: Option<nat>, a: nat): Job {
    ChainJob(k, state).(owner := owner, attempts := a, failure := OtherFailure)
  }

  const COUNTED := map[0 := Checked(5, 1, 5)]
  const LAPSED := Chain(5).(jobs := Chain(5).jobs[5 := Requeued(5, Running, Some(1), 2)], measured := COUNTED)

  // Five calls made, and the sixth counted by a worker that then loses its lease.
  lemma ReachesLapse(bindings: nat -> Binding) returns (steps: seq<Step>)
    ensures After(EMPTY, bindings, steps) == LAPSED
  {
    steps := ReachesChain(5, bindings);
    OneMore(EMPTY, bindings, steps, Lease(0, 5)); steps := steps + [Lease(0, 5)];
    LeaseStep(5, bindings);
    OneMore(EMPTY, bindings, steps, Measure(0, 5, 1)); steps := steps + [Measure(0, 5, 1)];
    OneMore(EMPTY, bindings, steps, Check(0)); steps := steps + [Check(0)];
    MeasureStep(Leased(5, 0, 1), 5, bindings, 0, 5, 1);
    OneMore(EMPTY, bindings, steps, ReadRow(9, 5)); steps := steps + [ReadRow(9, 5)];
    OneMore(EMPTY, bindings, steps, Expire(9, false)); steps := steps + [Expire(9, false)];
    LapseStep(bindings);
    OneMore(EMPTY, bindings, steps, Lease(1, 5)); steps := steps + [Lease(1, 5)];
    assert LAPSED.jobs == Chain(5).jobs[5 := Requeued(5, Queued, None, 1)][5 := Requeued(5, Running, Some(1), 2)];
  }

  lemma LapseStep(bindings: nat -> Binding)
    ensures var s := Leased(5, 0, 1).(measured := COUNTED);
      Next(Next(s, bindings, ReadRow(9, 5)), bindings, Expire(9, false))
        == s.(jobs := Chain(5).jobs[5 := Requeued(5, Queued, None, 1)])
  {
    var s := Leased(5, 0, 1).(measured := COUNTED);
    var row := ChainJob(5, Running).(owner := Some(0), attempts := 1);
    assert s.jobs[5] == row;
    assert Next(s, bindings, ReadRow(9, 5)) == s.(held := map[9 := Held(5, row, false)]);
    WriteExpired(s, 5, row, bindings);
    assert s.jobs[5 := Requeued(5, Queued, None, 1)] == Chain(5).jobs[5 := Requeued(5, Queued, None, 1)];
  }

  // A reaper writes back a proposal that it read as running.
  lemma WriteExpired(s: State, j: nat, row: Job, bindings: nat -> Binding)
    requires j < |s.jobs| && row.kind == Proposal && row.state == Running && row.attempts < 3 && s.held == map[]
    ensures Next(s.(held := map[9 := Held(j, row, false)]), bindings, Expire(9, false))
         == s.(jobs := s.jobs[j := s.jobs[j].(state := Queued, owner := None, failure := OtherFailure)])
  {
    assert map[9 := Held(j, row, false)] - {9} == map[];
  }

  // A worker reads the budget with one call left and loses its lease before it journals
  // the call; its successor makes that call, and then the first journals its own: seven
  // calls under one root, without an extension.
  lemma SeventhCall(bindings: nat -> Binding) returns (steps: seq<Step>)
    ensures var journal := After(EMPTY, bindings, steps).journal;
      Calls(journal, 0, |journal|) == 7 && GrantedTo(journal, 0, |journal|).None?
  {
    steps := ReachesLapse(bindings);
    OneMore(EMPTY, bindings, steps, Measure(1, 5, 2)); steps := steps + [Measure(1, 5, 2)];
    OneMore(EMPTY, bindings, steps, Check(1)); steps := steps + [Check(1)];
    MeasureStep(LAPSED, 5, bindings, 1, 5, 2);
    var s := LAPSED.(measured := COUNTED[1 := Checked(5, 2, 5)]);
    SevenCalls(s, bindings, steps, 5, 2, 5, 1, 1, 0);
    steps := steps + [Record(1)] + [Record(0)];
  }

  // Five calls made, and two workers that have each measured them journal another.
  lemma SevenCalls(s: State, bindings: nat -> Binding, steps: seq<Step>, j: nat, a: nat, k: nat, b: nat, w: nat, v: nat)
    requires After(EMPTY, bindings, steps) == s && s.journal == Chain(5).journal && w != v && Call(0, j, a) != Call(0, k, b)
    requires w in s.measured && s.measured[w] == Checked(j, a, 5) && Call(0, j, a) !in s.journal
    requires v in s.measured && s.measured[v] == Checked(k, b, 5) && Call(0, k, b) !in s.journal
    ensures var journal := After(EMPTY, bindings, steps + [Record(w)] + [Record(v)]).journal;
      Calls(journal, 0, |journal|) == 7 && GrantedTo(journal, 0, |journal|).None?
    ensures Fenced(EMPTY, bindings, steps) && Current(s, w, s.measured[w]) && Current(s, v, s.measured[v])
      ==> Fenced(EMPTY, bindings, steps + [Record(w)] + [Record(v)])
  {
    OneMore(EMPTY, bindings, steps, Record(w));
    RecordStep(s, bindings, w, j, a, 5);
    OneMore(EMPTY, bindings, steps + [Record(w)], Record(v));
    RecordStep(Next(s, bindings, Record(w)), bindings, v, k, b, 5);
    var journal := Chain(5).journal + [Call(0, j, a)] + [Call(0, k, b)];
    ChainCalls(5, 5);
    CallsPrefix(Chain(5).journal, journal, 0, 5);
    assert Calls(journal, 0, 6) == 6;
    NoGrants(journal, 0, 7);
  }

  lemma {:induction false} NoGrants(journal: seq<Event>, root: nat, n: nat)
    requires n <= |journal| && forall k | 0 <= k < n :: !journal[k].Extended?
    ensures GrantedTo(journal, root, n).None?
  {
    if n > 0 {
      NoGrants(journal, root, n - 1);
    }
  }

  // ---------- A job written over after it was continued ----------

  const CONTINUED := Held(4, ChainJob(4, Running).(owner := Some(0), attempts := 1), false)

  function Twins(first: Job, second: Job): State {
    Chain(5).(jobs := Chain(5).jobs[4 := first][5 := second])
  }

  // The fifth job is read as running, succeeds with a read, and is queued once more.
  lemma ReachesTwins(bindings: nat -> Binding) returns (steps: seq<Step>)
    ensures After(EMPTY, bindings, steps) == Twins(Requeued(4, Queued, None, 1), ChainJob(5, Queued)) && Fenced(EMPTY, bindings, steps)
  {
    steps := ReachesChain(4, bindings);
    steps := CallMade(4, bindings, steps);
    var s := Leased(4, 0, 1).(journal := Chain(5).journal);
    OneMore(EMPTY, bindings, steps, ReadRow(9, 4)); steps := steps + [ReadRow(9, 4)];
    assert s.jobs[4] == CONTINUED.row;
    assert Next(s, bindings, ReadRow(9, 4)) == s.(held := map[9 := CONTINUED]);
    OneMore(EMPTY, bindings, steps, Read(0, 4)); steps := steps + [Read(0, 4)];
    ReadStep(4, bindings, map[9 := CONTINUED]);
    OneMore(EMPTY, bindings, steps, Expire(9, false)); steps := steps + [Expire(9, false)];
    TwinStep(bindings);
  }

  lemma TwinStep(bindings: nat -> Binding)
    ensures Next(Chain(5).(held := map[9 := CONTINUED]), bindings, Expire(9, false)) == Twins(Requeued(4, Queued, None, 1), ChainJob(5, Queued))
  {
    WriteExpired(Chain(5), 4, CONTINUED.row, bindings);
    assert Chain(5).jobs[4] == ChainJob(4, Succeeded) && Chain(5).jobs[5] == ChainJob(5, Queued);
    assert Chain(5).jobs[4 := Requeued(4, Queued, None, 1)] == Twins(Requeued(4, Queued, None, 1), ChainJob(5, Queued)).jobs;
  }

  lemma LeaseTwins(bindings: nat -> Binding)
    ensures var s := Twins(Requeued(4, Queued, None, 1), ChainJob(5, Queued));
      var t := Twins(Requeued(4, Running, Some(1), 2), ChainJob(5, Running).(owner := Some(2), attempts := 1));
      Next(Next(s, bindings, Lease(1, 4)), bindings, Lease(2, 5)) == t
  {
    var s := Twins(Requeued(4, Queued, None, 1), ChainJob(5, Queued));
    var u := Twins(Requeued(4, Running, Some(1), 2), ChainJob(5, Queued));
    assert s.jobs[4 := Requeued(4, Running, Some(1), 2)] == u.jobs;
    assert Next(s, bindings, Lease(1, 4)) == u;
    var second := ChainJob(5, Running).(owner := Some(2), attempts := 1);
    assert u.jobs[5 := second] == Twins(Requeued(4, Running, Some(1), 2), second).jobs;
  }

  // A proposal asks for its read and is continued while a reaper that has read it as
  // running is about to write; that queues it again beside the job that continues it. Both
  // are leased, both measure five calls, and both make one more: seven calls under one
  // root by workers whose leases and attempts are current throughout.
  lemma TwoCurrentWorkers(bindings: nat -> Binding) returns (steps: seq<Step>)
    ensures var journal := After(EMPTY, bindings, steps).journal;
      Fenced(EMPTY, bindings, steps) && Calls(journal, 0, |journal|) == 7 && GrantedTo(journal, 0, |journal|).None?
  {
    steps := ReachesTwins(bindings);
    OneMore(EMPTY, bindings, steps, Lease(1, 4)); steps := steps + [Lease(1, 4)];
    OneMore(EMPTY, bindings, steps, Lease(2, 5)); steps := steps + [Lease(2, 5)];
    LeaseTwins(bindings);
    var t := Twins(Requeued(4, Running, Some(1), 2), ChainJob(5, Running).(owner := Some(2), attempts := 1));
    OneMore(EMPTY, bindings, steps, Measure(1, 4, 2)); steps := steps + [Measure(1, 4, 2)];
    OneMore(EMPTY, bindings, steps, Check(1)); steps := steps + [Check(1)];
    MeasureStep(t, 5, bindings, 1, 4, 2);
    var u := t.(measured := map[1 := Checked(4, 2, 5)]);
    OneMore(EMPTY, bindings, steps, Measure(2, 5, 1)); steps := steps + [Measure(2, 5, 1)];
    OneMore(EMPTY, bindings, steps, Check(2)); steps := steps + [Check(2)];
    MeasureStep(u, 5, bindings, 2, 5, 1);
    SevenCalls(u.(measured := u.measured[2 := Checked(5, 1, 5)]), bindings, steps, 4, 2, 5, 1, 1, 2);
    steps := steps + [Record(1)] + [Record(2)];
  }
}
