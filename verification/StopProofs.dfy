// What stops and ticks keep over every run, however a tick's steps are overtaken.
module StopProofs {
  import opened Prelude
  import opened Jobs
  import opened StopScope

  // ---------- The invariant ----------

  // The scope a stop froze: jobs that were there, none of them a remote write; and every
  // job still going that has not been queued since is among them.
  predicate StopOk(s: State, i: nat)
    requires i < |s.journal|
  {
    s.journal[i].StopRequested? ==>
      s.journal[i].clock < s.clock
      && (s.journal[i].scope.Some? ==> ScopeOk(s, s.journal[i].scope.value, s.journal[i].clock))
  }

  predicate ScopeOk(s: State, ids: set<nat>, clock: nat) {
    (forall j | j in ids :: j < |s.jobs| && s.jobs[j].born <= clock && !s.jobs[j].write)
    && forall j | 0 <= j < |s.jobs| && !Terminal(s.jobs[j].state) && s.jobs[j].since <= clock :: j in ids
  }

  predicate CancelOk(s: State, c: (nat, nat)) {
    IsStop(s.journal, c.0) && InScope(s, c.0, c.1)
  }

  predicate JobOk(s: State, j: nat)
    requires j < |s.jobs|
  {
    s.jobs[j].born <= s.jobs[j].since < s.clock
  }

  // The stop stood when the journal was read.
  predicate StoodAt(journal: seq<Event>, stop: nat, journalAt: nat) {
    journalAt <= |journal| && StandingStop(journal, journalAt) == Some(stop)
  }

  // Job j has ended, or has been queued anew since the rows were read.
  predicate Ended(s: State, j: nat, jobsAt: nat) {
    j < |s.jobs| && (Terminal(s.jobs[j].state) || s.jobs[j].since > jobsAt)
  }

  predicate ReadAfter(s: State, stop: nat, jobsAt: nat) {
    IsStop(s.journal, stop) && s.journal[stop].clock < jobsAt < s.clock
  }

  predicate FrozenEnded(s: State, stop: nat, jobsAt: nat)
    requires IsStop(s.journal, stop)
  {
    s.journal[stop].scope.Some? ==> forall j | j in s.journal[stop].scope.value :: Ended(s, j, jobsAt)
  }

  predicate TickOk(s: State, tick: Tick) {
    match tick
    case Resting => true
    case Standing(stop, journalAt) => StoodAt(s.journal, stop, journalAt)
    case Cancelling(stop, journalAt, jobsAt, view, at) =>
      StoodAt(s.journal, stop, journalAt) && ReadAfter(s, stop, jobsAt) && |view| <= |s.jobs| && at <= |view|
      && (s.journal[stop].scope.Some? ==> forall j | j in s.journal[stop].scope.value :: j < |view|)
      && forall j | 0 <= j < |view| && Terminal(view[j]) :: Ended(s, j, jobsAt)
    case Checked(stop, journalAt, jobsAt) => StoodAt(s.journal, stop, journalAt) && ReadAfter(s, stop, jobsAt) && FrozenEnded(s, stop, jobsAt)
    case Replanning(stop, journalAt, jobsAt, _) => StoodAt(s.journal, stop, journalAt) && ReadAfter(s, stop, jobsAt) && FrozenEnded(s, stop, jobsAt)
    case Replanned(stop) => true
  }

  predicate Inv(s: State) {
    && (forall i | 0 <= i < |s.journal| :: StopOk(s, i))
    && (forall k | 0 <= k < |s.cancels| :: CancelOk(s, s.cancels[k]))
    && (forall j | 0 <= j < |s.jobs| :: JobOk(s, j))
    && (forall t | t in s.ticks :: TickOk(s, s.ticks[t]))
  }

  // ---------- What a step may do to a job ----------

  // As it was, or ended, or queued anew now.
  predicate JobFollows(was: Job, now: Job, clock: nat) {
    now.write == was.write && now.created == was.created && now.born == was.born
    && (now.since == was.since || now.since == clock)
    && (Terminal(was.state) && !Terminal(now.state) ==> now.since == clock)
  }

  // The journal and the jobs go on by one step.
  predicate Follows(s: State, t: State) {
    && t.clock == s.clock + 1 && s.journal <= t.journal && |s.jobs| <= |t.jobs|
    && (forall j | 0 <= j < |s.jobs| :: JobFollows(s.jobs[j], t.jobs[j], s.clock))
    && (forall j | |s.jobs| <= j < |t.jobs| :: t.jobs[j].born == t.jobs[j].since == s.clock)
  }

  lemma JobsKept(s: State, t: State)
    requires Inv(s) && Follows(s, t)
    ensures forall j | 0 <= j < |t.jobs| :: JobOk(t, j)
  {
    forall j | 0 <= j < |t.jobs| ensures JobOk(t, j) {
      if j < |s.jobs| {
        assert JobOk(s, j) && JobFollows(s.jobs[j], t.jobs[j], s.clock);
      }
    }
  }

  lemma StopKept(s: State, t: State, i: nat)
    requires Inv(s) && Follows(s, t) && i < |s.journal|
    ensures StopOk(t, i)
  {
    assert StopOk(s, i) && t.journal[i] == s.journal[i];
    if s.journal[i].StopRequested? && s.journal[i].scope.Some? {
      var ids, clock := s.journal[i].scope.value, s.journal[i].clock;
      forall j | 0 <= j < |t.jobs| && !Terminal(t.jobs[j].state) && t.jobs[j].since <= clock ensures j in ids {
        assert j < |s.jobs| ==> JobFollows(s.jobs[j], t.jobs[j], s.clock);
      }
      forall j | j in ids ensures j < |t.jobs| && t.jobs[j].born <= clock && !t.jobs[j].write {
        assert JobFollows(s.jobs[j], t.jobs[j], s.clock);
      }
    }
  }

  lemma EndedKept(s: State, t: State, j: nat, jobsAt: nat)
    requires Follows(s, t) && Ended(s, j, jobsAt) && jobsAt < s.clock
    ensures Ended(t, j, jobsAt)
  {
    assert JobFollows(s.jobs[j], t.jobs[j], s.clock);
  }

  lemma {:induction false} LatestStable(journal: seq<Event>, more: seq<Event>, n: nat)
    requires n <= |journal| && journal <= more
    ensures LatestStop(more, n) == LatestStop(journal, n) && LatestStarted(more, n) == LatestStarted(journal, n)
    ensures LatestAuthorized(more, n) == LatestAuthorized(journal, n)
  {
    if n > 0 {
      LatestStable(journal, more, n - 1);
    }
  }

  lemma StoodKept(s: State, t: State, stop: nat, journalAt: nat)
    requires StoodAt(s.journal, stop, journalAt) && s.journal <= t.journal
    ensures StoodAt(t.journal, stop, journalAt)
  {
    LatestStable(s.journal, t.journal, journalAt);
  }

  lemma TickKept(s: State, t: State, tick: Tick)
    requires Inv(s) && Follows(s, t) && TickOk(s, tick)
    ensures TickOk(t, tick)
  {
    if !tick.Resting? && !tick.Replanned? {
      StoodKept(s, t, tick.stop, tick.journalAt);
      if !tick.Standing? {
        forall j | Ended(s, j, tick.jobsAt) ensures Ended(t, j, tick.jobsAt) {
          EndedKept(s, t, j, tick.jobsAt);
        }
      }
    }
  }

  lemma CancelKept(s: State, t: State, c: (nat, nat))
    requires Inv(s) && Follows(s, t) && CancelOk(s, c)
    ensures CancelOk(t, c)
  {
    assert JobFollows(s.jobs[c.1], t.jobs[c.1], s.clock);
  }

  // A step that follows, appends what is sound, and leaves one tick at a sound place.
  lemma StepSound(s: State, t: State)
    requires Inv(s) && Follows(s, t)
    requires forall i | |s.journal| <= i < |t.journal| :: StopOk(t, i)
    requires |s.cancels| <= |t.cancels| && t.cancels[..|s.cancels|] == s.cancels
    requires forall k | |s.cancels| <= k < |t.cancels| :: CancelOk(t, t.cancels[k])
    requires forall n | n in t.ticks :: TickOk(t, t.ticks[n]) || (n in s.ticks && t.ticks[n] == s.ticks[n])
    ensures Inv(t)
  {
    JobsKept(s, t);
    forall i | 0 <= i < |t.journal| ensures StopOk(t, i) {
      if i < |s.journal| {
        StopKept(s, t, i);
      }
    }
    forall k | 0 <= k < |t.cancels| ensures CancelOk(t, t.cancels[k]) {
      if k < |s.cancels| {
        assert t.cancels[k] == t.cancels[..|s.cancels|][k];
        CancelKept(s, t, s.cancels[k]);
      }
    }
    forall n | n in t.ticks ensures TickOk(t, t.ticks[n]) {
      if !TickOk(t, t.ticks[n]) {
        TickKept(s, t, s.ticks[n]);
      }
    }
  }

  // ---------- The steps ----------

  lemma {:induction false} CancelScopeLog(s: State, stop: nat, n: nat)
    requires IsStop(s.journal, stop) && n <= |s.jobs|
    ensures var d := CancelScope(s, stop, n);
      |s.cancels| <= |d.cancels| && d.cancels[..|s.cancels|] == s.cancels
      && forall k | |s.cancels| <= k < |d.cancels| :: d.cancels[k].0 == stop && InScope(s, stop, d.cancels[k].1)
  {
    if n > 0 {
      CancelScopeLog(s, stop, n - 1);
    }
  }

  lemma NewStopOk(s: State, key: string, now: int)
    requires Inv(s) && FindStop(s.journal, key, |s.journal|).None? && !WriteActive(s)
    ensures var t := Next(s, StopStep(key, now));
      Follows(s, t) && |t.journal| == |s.journal| + 1 && StopOk(t, |s.journal|)
  {
    forall j | j in ActiveJobs(s) ensures j < |s.jobs| && s.jobs[j].born <= s.clock && !s.jobs[j].write {
      assert JobOk(s, j);
    }
  }

  lemma NewStopCancels(s: State, key: string, now: int)
    requires Inv(s) && FindStop(s.journal, key, |s.journal|).None? && !WriteActive(s)
    ensures var t := Next(s, StopStep(key, now));
      |s.cancels| <= |t.cancels| && t.cancels[..|s.cancels|] == s.cancels && forall k | |s.cancels| <= k < |t.cancels| :: CancelOk(t, t.cancels[k])
  {
    var scoped := s.(journal := s.journal + [StopRequested(key, Some(ActiveJobs(s)), now, s.clock)]);
    CancelScopeLog(scoped, |s.journal|, |s.jobs|);
  }

  lemma StopStepKeeps(s: State, key: string, now: int)
    requires Inv(s)
    ensures Inv(Next(s, StopStep(key, now)))
  {
    if FindStop(s.journal, key, |s.journal|).None? && !WriteActive(s) {
      NewStopOk(s, key, now);
      NewStopCancels(s, key, now);
    }
    StepSound(s, Next(s, StopStep(key, now)));
  }

  lemma ReadJournalKeeps(s: State, n: nat)
    requires Inv(s)
    ensures Inv(Next(s, TickJournal(n)))
  {
    StepSound(s, Next(s, TickJournal(n)));
  }

  lemma ReadJobsKeeps(s: State, n: nat)
    requires Inv(s)
    ensures Inv(Next(s, TickJobs(n)))
  {
    var t := Next(s, TickJobs(n));
    var tick := TickAt(s, n);
    if tick.Standing? {
      assert TickOk(s, s.ticks[n]);
      StoodKept(s, t, tick.stop, tick.journalAt);
      StoodIsStop(s.journal, tick.stop, tick.journalAt);
      assert StopOk(s, tick.stop);
    }
    StepSound(s, t);
  }

  lemma StoodIsStop(journal: seq<Event>, stop: nat, journalAt: nat)
    requires StoodAt(journal, stop, journalAt)
    ensures IsStop(journal, stop) && stop < journalAt
  {
  }

  lemma CancelFollows(s: State, n: nat)
    requires Inv(s)
    ensures Follows(s, Next(s, TickCancel(n)))
  {
  }

  // A row seen unfinished is left cancelled, or seen as it was.
  lemma CancelTickOk(s: State, n: nat)
    requires Inv(s) && TickAt(s, n).Cancelling? && TickAt(s, n).at < |TickAt(s, n).view|
    ensures TickOk(Next(s, TickCancel(n)), TickAt(Next(s, TickCancel(n)), n))
  {
    var t := Next(s, TickCancel(n));
    var tick := TickAt(s, n);
    assert TickOk(s, s.ticks[n]);
    CancelFollows(s, n);
    StoodKept(s, t, tick.stop, tick.journalAt);
    var view := TickAt(t, n).view;
    forall j | 0 <= j < |view| && Terminal(view[j]) ensures Ended(t, j, tick.jobsAt) {
      if Terminal(tick.view[j]) {
        EndedKept(s, t, j, tick.jobsAt);
      }
    }
  }

  lemma CheckTickOk(s: State, n: nat)
    requires Inv(s) && TickAt(s, n).Cancelling? && TickAt(s, n).at == |TickAt(s, n).view|
    ensures TickOk(Next(s, TickCancel(n)), TickAt(Next(s, TickCancel(n)), n))
  {
    var t := Next(s, TickCancel(n));
    var tick := TickAt(s, n);
    assert TickOk(s, s.ticks[n]);
    CancelFollows(s, n);
    StoodKept(s, t, tick.stop, tick.journalAt);
    if TickAt(t, n).Checked? && s.journal[tick.stop].scope.Some? {
      forall j | j in s.journal[tick.stop].scope.value ensures Ended(t, j, tick.jobsAt) {
        assert j < |tick.view| && InScope(s, tick.stop, j);
        EndedKept(s, t, j, tick.jobsAt);
      }
    }
  }

  lemma CancelLog(s: State, n: nat)
    requires Inv(s)
    ensures var t := Next(s, TickCancel(n));
      |s.cancels| <= |t.cancels| && t.cancels[..|s.cancels|] == s.cancels && forall k | |s.cancels| <= k < |t.cancels| :: CancelOk(t, t.cancels[k])
  {
    CancelFollows(s, n);
  }

  lemma CancelTicks(s: State, n: nat)
    requires Inv(s)
    ensures var t := Next(s, TickCancel(n));
      forall m | m in t.ticks :: TickOk(t, t.ticks[m]) || (m in s.ticks && t.ticks[m] == s.ticks[m])
  {
    var tick := TickAt(s, n);
    if tick.Cancelling? {
      assert TickOk(s, s.ticks[n]);
      if tick.at < |tick.view| {
        CancelTickOk(s, n);
      } else {
        CheckTickOk(s, n);
      }
    }
  }

  lemma CancelNextKeeps(s: State, n: nat)
    requires Inv(s)
    ensures Inv(Next(s, TickCancel(n)))
  {
    CancelFollows(s, n);
    CancelLog(s, n);
    CancelTicks(s, n);
    StepSound(s, Next(s, TickCancel(n)));
  }

  lemma TaskKeeps(s: State, n: nat)
    requires Inv(s)
    ensures Inv(Next(s, TickTask(n)))
  {
    var t := Next(s, TickTask(n));
    if TickAt(s, n).Checked? {
      assert TickOk(s, s.ticks[n]);
      TickKept(s, t, TickAt(s, n));
    }
    StepSound(s, t);
  }

  lemma MoveKeeps(s: State, n: nat)
    requires Inv(s)
    ensures Inv(Next(s, TickMove(n)))
  {
    StepSound(s, Next(s, TickMove(n)));
  }

  lemma FailKeeps(s: State, n: nat)
    requires Inv(s)
    ensures Inv(Next(s, TickFails(n)))
  {
    StepSound(s, Next(s, TickFails(n)));
  }

  predicate OfWorld(step: Step) {
    !step.StopStep? && !step.TickJournal? && !step.TickJobs? && !step.TickCancel? && !step.TickTask? && !step.TickMove? && !step.TickFails?
  }

  lemma WorldFollows(s: State, step: Step)
    requires OfWorld(step)
    ensures Follows(s, Next(s, step)) && Next(s, step).cancels == s.cancels
  {
    if step.LoseLease? || step.Requeue? || step.CancelStep? {
      RowFollows(s, step);
    }
  }

  lemma RowFollows(s: State, step: Step)
    requires step.LoseLease? || step.Requeue? || step.CancelStep?
    ensures Follows(s, Next(s, step)) && Next(s, step).cancels == s.cancels
  {
  }

  lemma WorldAppends(s: State, step: Step)
    requires OfWorld(step)
    ensures forall i | |s.journal| <= i < |Next(s, step).journal| :: StopOk(Next(s, step), i)
    ensures forall n | n in Next(s, step).ticks :: Next(s, step).ticks[n] == Resting || (n in s.ticks && Next(s, step).ticks[n] == s.ticks[n])
  {
  }

  lemma WorldKeeps(s: State, step: Step)
    requires Inv(s) && OfWorld(step)
    ensures Inv(Next(s, step))
  {
    WorldFollows(s, step);
    WorldAppends(s, step);
    StepSound(s, Next(s, step));
  }

  lemma StepKeeps(s: State, step: Step)
    requires Inv(s)
    ensures Inv(Next(s, step))
  {
    match step
    case StopStep(key, now) => StopStepKeeps(s, key, now);
    case TickJournal(n) => ReadJournalKeeps(s, n);
    case TickJobs(n) => ReadJobsKeeps(s, n);
    case TickCancel(n) => CancelNextKeeps(s, n);
    case TickTask(n) => TaskKeeps(s, n);
    case TickMove(n) => MoveKeeps(s, n);
    case TickFails(n) => FailKeeps(s, n);
    case _ => WorldKeeps(s, step);
  }

  lemma {:induction false} RunKeeps(s: State, steps: seq<Step>)
    requires Inv(s)
    ensures Inv(Run(s, steps))
    decreases |steps|
  {
    if steps != [] {
      StepKeeps(s, steps[0]);
      RunKeeps(Next(s, steps[0]), steps[1..]);
    }
  }

  lemma ReachableInv(steps: seq<Step>)
    ensures Inv(Run(EMPTY, steps))
  {
    RunKeeps(EMPTY, steps);
  }

  // ---------- What stops and ticks promise ----------

  // In every run, however ticks are overtaken, a scoped stop asks only jobs of its frozen
  // list to cancel: each was enqueued before it, and none is a remote write.
  lemma StopCancelsItsScopeOnly(steps: seq<Step>, k: nat)
    requires k < |Run(EMPTY, steps).cancels|
    requires var s := Run(EMPTY, steps); IsStop(s.journal, s.cancels[k].0) ==> s.journal[s.cancels[k].0].scope.Some?
    ensures var s := Run(EMPTY, steps);
      var (stop, j) := s.cancels[k];
      IsStop(s.journal, stop) && j < |s.jobs| && j in s.journal[stop].scope.value
      && s.jobs[j].born <= s.journal[stop].clock && !s.jobs[j].write
  {
    ReachableInv(steps);
    var s := Run(EMPTY, steps);
    assert CancelOk(s, s.cancels[k]);
    assert StopOk(s, s.cancels[k].0);
  }

  // The tick is about to return the task to planning.
  predicate Returning(s: State, n: nat) {
    TickAt(s, n).Replanning? && TickAt(s, n).seen == s.version
  }

  predicate FrozenOver(s: State, stop: nat)
    requires IsStop(s.journal, stop) && s.journal[stop].scope.Some?
  {
    forall j | j in s.journal[stop].scope.value :: j < |s.jobs| && Terminal(s.jobs[j].state)
  }

  // A frozen job that was queued anew after the tick read the rows, and still goes.
  predicate RevivedSince(s: State, stop: nat, jobsAt: nat)
    requires IsStop(s.journal, stop) && s.journal[stop].scope.Some?
  {
    exists j | j in s.journal[stop].scope.value :: j < |s.jobs| && s.jobs[j].since > jobsAt && !Terminal(s.jobs[j].state)
  }

  // In every run, a tick that returns the task to planning for a scoped stop finds every
  // frozen job ended, exactly unless one has been queued anew since the tick read the
  // rows, by a retry or a reaper, and has not ended again. Whatever is not over was queued
  // after the stop.
  lemma PlanningFindsTheStopDoneIff(steps: seq<Step>, n: nat)
    requires Returning(Run(EMPTY, steps), n)
    ensures var s := Run(EMPTY, steps);
      var tick := TickAt(s, n);
      IsStop(s.journal, tick.stop) && Next(s, TickMove(n)).task == Planning
      && (s.journal[tick.stop].scope.Some? ==>
            (FrozenOver(s, tick.stop) <==> !RevivedSince(s, tick.stop, tick.jobsAt))
            && forall j | 0 <= j < |s.jobs| && !Terminal(s.jobs[j].state) :: s.jobs[j].since > s.journal[tick.stop].clock)
  {
    ReachableInv(steps);
    var s := Run(EMPTY, steps);
    var tick := TickAt(s, n);
    assert TickOk(s, s.ticks[n]) && StopOk(s, tick.stop);
    if s.journal[tick.stop].scope.Some? {
      var ids := s.journal[tick.stop].scope.value;
      forall j | 0 <= j < |s.jobs| && !Terminal(s.jobs[j].state) ensures s.jobs[j].since > s.journal[tick.stop].clock {
        assert j in ids ==> Ended(s, j, tick.jobsAt);
      }
      forall j | j in ids ensures Ended(s, j, tick.jobsAt) {
      }
    }
  }

  predicate Withdraws(e: Event) {
    e.StopRequested? || e.Started? || e.Authorized?
  }

  // The stop that a tick carries out still stands when the task is moved exactly if no
  // stop, start or authorization was journaled since the tick read the journal.
  lemma StopStillStandsIff(steps: seq<Step>, n: nat)
    requires Returning(Run(EMPTY, steps), n)
    ensures var s := Run(EMPTY, steps);
      var tick := TickAt(s, n);
      tick.journalAt <= |s.journal| &&
      (StandingStop(s.journal, |s.journal|) == Some(tick.stop) <==> Quiet(s.journal, tick.journalAt, |s.journal|))
  {
    ReachableInv(steps);
    var s := Run(EMPTY, steps);
    var tick := TickAt(s, n);
    assert TickOk(s, s.ticks[n]);
    StoodIsStop(s.journal, tick.stop, tick.journalAt);
    StandsIff(s.journal, tick.stop, tick.journalAt, |s.journal|);
  }

  predicate Quiet(journal: seq<Event>, lo: nat, hi: nat)
    requires hi <= |journal|
  {
    forall k | lo <= k < hi :: !Withdraws(journal[k])
  }

  // A stop stands exactly if nothing after it withdraws it.
  lemma StandingIff(journal: seq<Event>, stop: nat, n: nat)
    requires n <= |journal|
    ensures StandingStop(journal, n) == Some(stop) <==> stop < n && journal[stop].StopRequested? && Quiet(journal, stop + 1, n)
  {
    var latest := LatestStop(journal, n);
    if stop < n && journal[stop].StopRequested? && Quiet(journal, stop + 1, n) {
      assert latest == Some(stop);
    }
  }

  lemma StandsIff(journal: seq<Event>, stop: nat, journalAt: nat, n: nat)
    requires stop < journalAt <= n <= |journal| && StandingStop(journal, journalAt) == Some(stop)
    ensures StandingStop(journal, n) == Some(stop) <==> Quiet(journal, journalAt, n)
  {
    StandingIff(journal, stop, journalAt);
    StandingIff(journal, stop, n);
    assert Quiet(journal, stop + 1, n) <==> Quiet(journal, stop + 1, journalAt) && Quiet(journal, journalAt, n);
  }

  // ---------- A tick alone ----------

  lemma {:induction false} OneMore(s: State, steps: seq<Step>, step: Step)
    ensures Run(s, steps + [step]) == Next(Run(s, steps), step)
    decreases |steps|
  {
    if steps == [] {
      assert steps + [step] == [step] && [step][1..] == [];
    } else {
      assert (steps + [step])[1..] == steps[1..] + [step];
      OneMore(Next(s, steps[0]), steps[1..], step);
    }
  }

  // What a tick leaves alone until it moves the task.
  predicate Undisturbed(s: State, t: State) {
    t.journal == s.journal && t.version == s.version && t.task == s.task && |t.jobs| == |s.jobs|
    && forall j | 0 <= j < |s.jobs| :: t.jobs[j].since == s.jobs[j].since
  }

  predicate CancellingFor(tick: Tick, stop: nat, jobsAt: nat) {
    tick.Cancelling? && tick.stop == stop && tick.jobsAt == jobsAt
  }

  lemma CancelAlone(s: State, n: nat, stop: nat, jobsAt: nat)
    requires Inv(s) && CancellingFor(TickAt(s, n), stop, jobsAt)
    ensures var t := Next(s, TickCancel(n));
      Inv(t) && Undisturbed(s, t) && (TickAt(t, n).Cancelling? ==>
        CancellingFor(TickAt(t, n), stop, jobsAt)
        && |TickAt(t, n).view| == |TickAt(s, n).view| && TickAt(t, n).at == TickAt(s, n).at + 1 && TickAt(s, n).at < |TickAt(s, n).view|)
      && (!TickAt(t, n).Cancelling? ==> TickAt(t, n) == Resting || (TickAt(t, n).Checked? && TickAt(t, n).stop == stop && TickAt(t, n).jobsAt == jobsAt))
  {
    assert TickOk(s, s.ticks[n]);
    StepKeeps(s, TickCancel(n));
  }

  // The rows of the stop are cancelled one by one, and looked at again.
  method CancelRows(s: State, n: nat) returns (t: State, ghost steps: seq<Step>)
    requires Inv(s) && TickAt(s, n).Cancelling?
    ensures t == Run(s, steps) && Inv(t) && Undisturbed(s, t)
    ensures TickAt(t, n) == Resting || (TickAt(t, n).Checked? && TickAt(t, n).stop == TickAt(s, n).stop && TickAt(t, n).jobsAt == TickAt(s, n).jobsAt)
  {
    t := s;
    steps := [];
    ghost var stop, jobsAt := TickAt(s, n).stop, TickAt(s, n).jobsAt;
    while TickAt(t, n).Cancelling?
      invariant t == Run(s, steps) && Inv(t) && Undisturbed(s, t)
      invariant TickAt(t, n).Cancelling? ==> CancellingFor(TickAt(t, n), stop, jobsAt)
      invariant !TickAt(t, n).Cancelling? ==> TickAt(t, n) == Resting || (TickAt(t, n).Checked? && TickAt(t, n).stop == stop && TickAt(t, n).jobsAt == jobsAt)
      decreases if TickAt(t, n).Cancelling? then |TickAt(t, n).view| + 1 - TickAt(t, n).at else 0
    {
      CancelAlone(t, n, stop, jobsAt);
      OneMore(s, steps, TickCancel(n));
      t := Next(t, TickCancel(n));
      steps := steps + [TickCancel(n)];
    }
  }

  lemma {:induction false} RunTwice(s: State, a: seq<Step>, b: seq<Step>)
    ensures Run(s, a + b) == Run(Run(s, a), b)
    decreases |a|
  {
    if a == [] {
      assert a + b == b;
    } else {
      assert (a + b)[1..] == a[1..] + b;
      RunTwice(Next(s, a[0]), a[1..], b);
    }
  }

  lemma TwoSteps(s: State, a: Step, b: Step)
    ensures Run(s, [a, b]) == Next(Next(s, a), b)
  {
    OneMore(s, [a], b);
    OneMore(s, [], a);
    assert [] + [a] == [a] && [a] + [b] == [a, b];
  }

  predicate HasRead(s: State, n: nat, stop: nat) {
    TickAt(s, n).Cancelling? && TickAt(s, n).stop == stop && forall j | 0 <= j < |s.jobs| :: s.jobs[j].since < TickAt(s, n).jobsAt
  }

  lemma ReadJobsAlone(s: State, n: nat)
    requires Inv(s) && TickAt(s, n).Standing?
    ensures var t := Next(s, TickJobs(n)); Inv(t) && Undisturbed(s, t) && HasRead(t, n, TickAt(s, n).stop)
  {
    StepKeeps(s, TickJobs(n));
    var t := Next(s, TickJobs(n));
    forall j | 0 <= j < |t.jobs| ensures t.jobs[j].since < TickAt(t, n).jobsAt {
      assert JobOk(s, j);
    }
  }

  // A tick that has read journal and jobs.
  lemma ReadAlone(s: State, n: nat)
    requires Inv(s) && TickAt(s, n) == Resting
    ensures var t := Next(Next(s, TickJournal(n)), TickJobs(n));
      Inv(t) && Undisturbed(s, t)
      && (TickAt(t, n) == Resting || (StandingStop(s.journal, |s.journal|).Some? && HasRead(t, n, StandingStop(s.journal, |s.journal|).value)))
  {
    StepKeeps(s, TickJournal(n));
    var mid := Next(s, TickJournal(n));
    if TickAt(mid, n).Standing? {
      ReadJobsAlone(mid, n);
    } else {
      StepKeeps(mid, TickJobs(n));
    }
  }

  // With no job queued anew since, a tick that has checked moves the task only when the
  // frozen jobs have ended.
  lemma MoveAlone(s: State, n: nat)
    requires Inv(s) && TickAt(s, n).Checked? && forall j | 0 <= j < |s.jobs| :: s.jobs[j].since < TickAt(s, n).jobsAt
    ensures var t := Run(s, [TickTask(n), TickMove(n)]);
      IsStop(s.journal, TickAt(s, n).stop) && Inv(t) && t.journal == s.journal && t.jobs == s.jobs
      && (s.journal[TickAt(s, n).stop].scope.Some? ==> FrozenOver(t, TickAt(s, n).stop))
  {
    TwoSteps(s, TickTask(n), TickMove(n));
    assert TickOk(s, s.ticks[n]);
    StepKeeps(s, TickTask(n));
    StepKeeps(Next(s, TickTask(n)), TickMove(n));
    if s.journal[TickAt(s, n).stop].scope.Some? {
      forall j | j in s.journal[TickAt(s, n).stop].scope.value ensures j < |s.jobs| && Terminal(s.jobs[j].state) {
        assert Ended(s, j, TickAt(s, n).jobsAt);
      }
    }
  }

  // _advance, up to the task's transition, when nothing comes in between: the task
  // returns to planning only when every frozen job of the standing stop has ended.
  method AdvanceAlone(s: State, n: nat) returns (t: State, ghost steps: seq<Step>)
    requires Inv(s) && TickAt(s, n) == Resting
    ensures t == Run(s, steps) && Inv(t) && t.journal == s.journal
    ensures t.task != s.task ==> StandingStop(s.journal, |s.journal|).Some?
    ensures t.task != s.task && s.journal[StandingStop(s.journal, |s.journal|).value].scope.Some? ==> FrozenOver(t, StandingStop(s.journal, |s.journal|).value)
  {
    ReadAlone(s, n);
    steps := [TickJournal(n), TickJobs(n)];
    TwoSteps(s, TickJournal(n), TickJobs(n));
    t := Next(Next(s, TickJournal(n)), TickJobs(n));
    if TickAt(t, n) == Resting {
      return;
    }
    ghost var read := t;
    ghost var more;
    t, more := CancelRows(t, n);
    RunTwice(s, steps, more);
    steps := steps + more;
    if TickAt(t, n) == Resting {
      return;
    }
    MoveAlone(t, n);
    TwoSteps(t, TickTask(n), TickMove(n));
    RunTwice(s, steps, [TickTask(n), TickMove(n)]);
    steps := steps + [TickTask(n), TickMove(n)];
    t := Next(Next(t, TickTask(n)), TickMove(n));
  }

  // ---------- Ticks that are overtaken ----------

  const FROZEN: Event := StopRequested("k", Some({0}), 0, 2)

  function Only(state: JobState, since: nat, cancelled: bool): seq<Job> {
    [Job(false, 0, 0, since, state, cancelled)]
  }

  // One job, stopped while queued, and a tick at the given place.
  function StoppedJob(journal: seq<Event>, jobs: seq<Job>, tick: Tick, cancels: seq<(nat, nat)>, clock: nat): State {
    State(journal, jobs, Executing, 1, cancels, map[0 := tick], clock, map[])
  }

  const STOPPED: State := State([FROZEN], Only(Cancelled, 0, true), Executing, 1, [(0, 0)], map[], 3, map[])

  const QUEUED_ONE: State := State([], Only(Queued, 0, false), Executing, 1, [], map[], 2, map[])

  lemma EnqueuesOne()
    ensures Run(EMPTY, [EnqueueStep(false, 0), MoveTask(Executing)]) == QUEUED_ONE
  {
    TwoSteps(EMPTY, EnqueueStep(false, 0), MoveTask(Executing));
    assert [] + [Job(false, 0, 0, 0, Queued, false)] == Only(Queued, 0, false);
  }

  lemma StopsQueued()
    ensures Next(QUEUED_ONE, StopStep("k", 0)) == STOPPED
  {
    var s := QUEUED_ONE;
    assert s.jobs[0].state == Queued && 0 in ActiveJobs(s);
    assert forall j | j in ActiveJobs(s) :: j == 0;
    assert ActiveJobs(s) == {0};
    var scoped := s.(journal := [FROZEN]);
    assert CancelScope(scoped, 0, 0) == scoped;
    assert CancelScope(scoped, 0, 1).jobs == Only(Cancelled, 0, true);
    assert [] + [(0 as nat, 0 as nat)] == [(0, 0)];
  }

  lemma StopsOne() returns (steps: seq<Step>)
    ensures Run(EMPTY, steps) == STOPPED
  {
    EnqueuesOne();
    steps := [EnqueueStep(false, 0), MoveTask(Executing)];
    OneMore(EMPTY, steps, StopStep("k", 0));
    StopsQueued();
    steps := steps + [StopStep("k", 0)];
  }

  lemma FrozenStands(e: Event)
    requires e.StopRequested?
    ensures StandingStop([e], 1) == Some(0)
  {
    assert [e][0] == e;
    assert LatestStop([e], 1) == Some(0);
    assert LatestStarted([e], 0) == None && LatestAuthorized([e], 0) == None;
  }

  // The one job was frozen by the one stop, and has ended.
  predicate OneEnded(s: State) {
    |s.journal| == 1 && s.journal[0].StopRequested? && s.journal[0].scope == Some({0}) && |s.jobs| == 1 && s.jobs[0].state == Cancelled
    && s.ticks == map[] && s.task == Executing
  }

  function AtTick(s: State, tick: Tick, steps: nat): State {
    s.(ticks := map[0 := tick], clock := s.clock + steps)
  }

  lemma ReadsEnded(s: State)
    requires OneEnded(s)
    ensures Next(Next(s, TickJournal(0)), TickJobs(0)) == AtTick(s, Cancelling(0, 1, s.clock + 1, [Cancelled], 0), 2)
  {
    FrozenStands(s.journal[0]);
    assert s.journal == [s.journal[0]];
    assert Next(s, TickJournal(0)) == AtTick(s, Standing(0, 1), 1);
    assert seq(|s.jobs|, j requires 0 <= j < |s.jobs| => s.jobs[j].state) == [Cancelled];
  }

  lemma ChecksEnded(s: State)
    requires OneEnded(s)
    ensures Next(Next(AtTick(s, Cancelling(0, 1, s.clock + 1, [Cancelled], 0), 2), TickCancel(0)), TickCancel(0))
         == AtTick(s, Checked(0, 1, s.clock + 1), 4)
  {
    assert Next(AtTick(s, Cancelling(0, 1, s.clock + 1, [Cancelled], 0), 2), TickCancel(0))
        == AtTick(s, Cancelling(0, 1, s.clock + 1, [Cancelled], 1), 3);
  }

  // A tick that found the one frozen job ended, and is about to move the task.
  lemma ReachesReturning(s: State, before: seq<Step>) returns (steps: seq<Step>)
    requires OneEnded(s) && Run(EMPTY, before) == s
    ensures Run(EMPTY, steps) == AtTick(s, Replanning(0, 1, s.clock + 1, s.version), 5)
  {
    TwoMore(before, TickJournal(0), TickJobs(0));
    ReadsEnded(s);
    steps := before + [TickJournal(0)] + [TickJobs(0)];
    TwoMore(steps, TickCancel(0), TickCancel(0));
    ChecksEnded(s);
    steps := steps + [TickCancel(0)] + [TickCancel(0)];
    OneMore(EMPTY, steps, TickTask(0));
    ReadsTask(s);
    steps := steps + [TickTask(0)];
  }

  lemma ReadsTask(s: State)
    requires OneEnded(s)
    ensures Next(AtTick(s, Checked(0, 1, s.clock + 1), 4), TickTask(0)) == AtTick(s, Replanning(0, 1, s.clock + 1, s.version), 5)
  {
  }

  lemma TwoMore(steps: seq<Step>, a: Step, b: Step)
    ensures Run(EMPTY, steps + [a] + [b]) == Next(Next(Run(EMPTY, steps), a), b)
  {
    OneMore(EMPTY, steps, a);
    OneMore(EMPTY, steps + [a], b);
  }

  // A frozen job is retried between the check and the transition: the task returns to
  // planning while the job is queued.
  lemma OvertakenByRetry() returns (steps: seq<Step>)
    ensures var s := Run(EMPTY, steps);
      s.task == Planning && s.journal == [FROZEN] && |s.jobs| == 1 && s.jobs[0].state == Queued && (0, 0) in s.cancels
  {
    steps := StopsOne();
    steps := ReachesReturning(STOPPED, steps);
    OneMore(EMPTY, steps, ReadRow(9, 0)); steps := steps + [ReadRow(9, 0)];
    OneMore(EMPTY, steps, Requeue(9)); steps := steps + [Requeue(9)];
    OneMore(EMPTY, steps, TickMove(0)); steps := steps + [TickMove(0)];
    QueuedAnew(AtTick(STOPPED, Replanning(0, 1, 4, 1), 5));
  }

  lemma QueuedAnew(s: State)
    requires |s.jobs| == 1 && s.jobs[0].state == Cancelled
    ensures var t := Next(Next(s, ReadRow(9, 0)), Requeue(9));
      t.jobs == [s.jobs[0].(state := Queued, cancelRequested := false, since := s.clock + 1)]
      && t.journal == s.journal && t.ticks == s.ticks && t.version == s.version && t.cancels == s.cancels
  {
    assert Next(s, ReadRow(9, 0)).held[9] == Held(0, s.jobs[0]);
  }

  // A reaper has read the job running before the stop asked it to cancel; the job ends,
  // the tick finds it ended, and the reaper writes it queued before the task moves.
  lemma OvertakenByReaper() returns (steps: seq<Step>)
    ensures var s := Run(EMPTY, steps);
      s.task == Planning && |s.journal| == 1 && s.journal[0].StopRequested? && s.journal[0].scope == Some({0})
      && |s.jobs| == 1 && s.jobs[0].state == Queued && (0, 0) in s.cancels
  {
    steps := ReachesEnded();
    steps := ReachesReturning(ENDED, steps);
    TwoMore(steps, LoseLease(9, false), TickMove(0));
    RevivedAndMoved(AtTick(ENDED, Replanning(0, 1, 7, 1), 5));
    steps := steps + [LoseLease(9, false)] + [TickMove(0)];
  }

  lemma RevivedAndMoved(s: State)
    requires s.held == SEEN && |s.jobs| == 1 && s.jobs[0].state == Cancelled && TickAt(s, 0).Replanning? && TickAt(s, 0).seen == s.version
    ensures var t := Next(Next(s, LoseLease(9, false)), TickMove(0));
      t.task == Planning && t.journal == s.journal && |t.jobs| == 1 && t.jobs[0].state == Queued && t.cancels == s.cancels
  {
    assert Rewritten(s.jobs[0], SEEN[9].row, LoseLease(9, false), s.clock).state == Queued;
  }

  lemma ReachesEnded() returns (steps: seq<Step>)
    ensures Run(EMPTY, steps) == ENDED
  {
    EnqueuesOne();
    steps := [EnqueueStep(false, 0), MoveTask(Executing)];
    TwoMore(steps, Begin(0), ReadRow(9, 0));
    ReadsRunning();
    steps := steps + [Begin(0)] + [ReadRow(9, 0)];
    TwoMore(steps, StopStep("k", 0), Finish(0, Cancelled));
    StopsRunning();
    steps := steps + [StopStep("k", 0)] + [Finish(0, Cancelled)];
  }

  const SEEN := map[9 := Held(0, Only(Running, 0, false)[0])]
  const RUNNING_ONE: State := State([], Only(Running, 0, false), Executing, 1, [], map[], 4, SEEN)
  const FLAGGED: State := State([FROZEN.(clock := 4)], Only(Running, 0, true), Executing, 1, [(0, 0)], map[], 5, SEEN)
  const ENDED: State := State([FROZEN.(clock := 4)], Only(Cancelled, 0, true), Executing, 1, [(0, 0)], map[], 6, SEEN)

  lemma ReadsRunning()
    ensures Next(Next(QUEUED_ONE, Begin(0)), ReadRow(9, 0)) == RUNNING_ONE
  {
    assert Next(QUEUED_ONE, Begin(0)).jobs == Only(Running, 0, false);
  }

  lemma StopsRunning()
    ensures Next(RUNNING_ONE, StopStep("k", 0)) == FLAGGED && Next(FLAGGED, Finish(0, Cancelled)) == ENDED
  {
    var s := RUNNING_ONE;
    assert s.jobs[0].state == Running && 0 in ActiveJobs(s);
    assert forall j | j in ActiveJobs(s) :: j == 0;
    assert ActiveJobs(s) == {0};
    var scoped := s.(journal := [FROZEN.(clock := 4)]);
    assert CancelScope(scoped, 0, 0) == scoped;
    assert CancelScope(scoped, 0, 1).jobs == Only(Running, 0, true);
    assert [] + [(0 as nat, 0 as nat)] == [(0, 0)];
    assert Next(FLAGGED, Finish(0, Cancelled)).jobs == Only(Cancelled, 0, true);
  }

  // The execution is authorized anew in between: the task returns to planning although
  // the stop stands no longer.
  lemma OvertakenByAuthorization() returns (steps: seq<Step>)
    ensures var s := Run(EMPTY, steps);
      s.task == Planning && s.journal == [FROZEN, Authorized] && StandingStop(s.journal, |s.journal|) == None
  {
    steps := StopsOne();
    steps := ReachesReturning(STOPPED, steps);
    TwoMore(steps, Journal(Authorized), TickMove(0));
    AuthorizedAndMoved(AtTick(STOPPED, Replanning(0, 1, 4, 1), 5));
    steps := steps + [Journal(Authorized)] + [TickMove(0)];
    NotStanding();
  }

  lemma AuthorizedAndMoved(s: State)
    requires s.journal == [FROZEN] && TickAt(s, 0).Replanning? && TickAt(s, 0).seen == s.version
    ensures var t := Next(Next(s, Journal(Authorized)), TickMove(0)); t.task == Planning && t.journal == [FROZEN, Authorized]
  {
    assert [FROZEN] + [Authorized] == [FROZEN, Authorized];
  }

  lemma NotStanding()
    ensures StandingStop([FROZEN, Authorized], 2) == None
  {
    assert [FROZEN, Authorized][1] == Authorized && [FROZEN, Authorized][0] == FROZEN;
    assert LatestAuthorized([FROZEN, Authorized], 2) == Some(1);
    assert LatestStop([FROZEN, Authorized], 1) == Some(0);
  }

  // A tick writes back the row that it read: a frozen job that was retried, read queued,
  // and has started since is cancelled outright, without the request that a running job
  // is given.
  lemma RunningJobIsOverwritten() returns (steps: seq<Step>, before: State)
    ensures before == Run(EMPTY, steps) && |before.jobs| == 1 && before.jobs[0].state == Running && !before.jobs[0].cancelRequested
    ensures |Next(before, TickCancel(0)).jobs| == 1 && Next(before, TickCancel(0)).jobs[0].state == Cancelled
  {
    steps := StopsOne();
    OneMore(EMPTY, steps, ReadRow(9, 0)); steps := steps + [ReadRow(9, 0)];
    OneMore(EMPTY, steps, Requeue(9)); steps := steps + [Requeue(9)];
    Retries();
    OneMore(EMPTY, steps, TickJournal(0)); steps := steps + [TickJournal(0)];
    OneMore(EMPTY, steps, TickJobs(0)); steps := steps + [TickJobs(0)];
    ReadsQueued();
    OneMore(EMPTY, steps, Begin(0)); steps := steps + [Begin(0)];
    BeginsAndIsOverwritten();
    before := Run(EMPTY, steps);
  }

  lemma Retries()
    ensures Next(Next(Next(STOPPED, ReadRow(9, 0)), Requeue(9)), TickJournal(0))
         == StoppedJob([FROZEN], Only(Queued, 4, false), Standing(0, 1), [(0, 0)], 6)
  {
    FrozenStands(FROZEN);
    var s := Next(STOPPED, ReadRow(9, 0));
    assert s.held - {9} == map[];
    assert Next(s, Requeue(9)).jobs == Only(Queued, 4, false);
  }

  lemma BeginsAndIsOverwritten()
    ensures var s := Next(StoppedJob([FROZEN], Only(Queued, 4, false), Cancelling(0, 1, 6, [Queued], 0), [(0, 0)], 7), Begin(0));
      s == StoppedJob([FROZEN], Only(Running, 4, false), Cancelling(0, 1, 6, [Queued], 0), [(0, 0)], 8)
      && Next(s, TickCancel(0)).jobs == Only(Cancelled, 4, true)
  {
    var s := StoppedJob([FROZEN], Only(Running, 4, false), Cancelling(0, 1, 6, [Queued], 0), [(0, 0)], 8);
    assert Next(StoppedJob([FROZEN], Only(Queued, 4, false), Cancelling(0, 1, 6, [Queued], 0), [(0, 0)], 7), Begin(0)).jobs == Only(Running, 4, false);
    assert IsStop([FROZEN], 0) && InScope(s, 0, 0);
  }

  lemma ReadsQueued()
    ensures Next(StoppedJob([FROZEN], Only(Queued, 4, false), Standing(0, 1), [(0, 0)], 6), TickJobs(0))
         == StoppedJob([FROZEN], Only(Queued, 4, false), Cancelling(0, 1, 6, [Queued], 0), [(0, 0)], 7)
  {
    var s := StoppedJob([FROZEN], Only(Queued, 4, false), Standing(0, 1), [(0, 0)], 6);
    assert seq(|s.jobs|, j requires 0 <= j < |s.jobs| => s.jobs[j].state) == [Queued];
  }
}
