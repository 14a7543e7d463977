// What a v4 turn keeps over every run, whatever its workers, crashes and stale leases do.
module TurnProofs {
  import opened Prelude
  import opened Jobs
  import opened TurnProtocol
  import opened TurnRuntime

  // ---------- The journal, event by event ----------

  lemma {:induction false} CallsPrefix(journal: seq<Event>, more: seq<Event>, j: nat, n: nat)
    requires n <= |journal| && journal <= more
    ensures Calls(more, j, n) == Calls(journal, j, n)
  {
    if n > 0 {
      CallsPrefix(journal, more, j, n - 1);
    }
  }

  lemma {:induction false} PurposePrefix(journal: seq<Event>, more: seq<Event>, message: nat, n: nat)
    requires n <= |journal| && journal <= more
    ensures PurposeOf(more, message, n) == PurposeOf(journal, message, n)
  {
    if n > 0 {
      PurposePrefix(journal, more, message, n - 1);
    }
  }

  lemma {:induction false} PurposeStays(journal: seq<Event>, message: nat, n: nat, m: nat)
    requires n <= m <= |journal|
    ensures PurposeOf(journal, message, n).Some? ==> PurposeOf(journal, message, m) == PurposeOf(journal, message, n)
  {
    if n < m {
      PurposeStays(journal, message, n, m - 1);
    }
  }

  // What an event says about the journal before it: the calls of a job are its attempts
  // in order, a message is classified once, and an action belongs to a command.
  predicate EventOk(journal: seq<Event>, i: nat)
    requires i < |journal|
  {
    match journal[i]
    case ModelCall(j, attempt, _) => attempt == Calls(journal, j, i)
    case Classified(message, _) => PurposeOf(journal, message, i).None?
    case Decided(message, _, action) => action != "respond" ==> PurposeOf(journal, message, i) == Some(Command)
    case _ => true
  }

  predicate JournalOk(journal: seq<Event>) {
    forall i | 0 <= i < |journal| :: EventOk(journal, i)
  }

  lemma EventStable(journal: seq<Event>, more: seq<Event>, i: nat)
    requires journal <= more && i < |journal| && EventOk(journal, i)
    ensures EventOk(more, i)
  {
    match journal[i]
    case ModelCall(j, _, _) => CallsPrefix(journal, more, j, i);
    case Classified(message, _) => PurposePrefix(journal, more, message, i);
    case Decided(message, _, _) => PurposePrefix(journal, more, message, i);
    case _ =>
  }

  lemma JournalGrows(journal: seq<Event>, e: Event)
    requires JournalOk(journal) && EventOk(journal + [e], |journal|)
    ensures JournalOk(journal + [e])
  {
    forall i | 0 <= i < |journal + [e]| ensures EventOk(journal + [e], i) {
      if i < |journal| {
        EventStable(journal, journal + [e], i);
      }
    }
  }

  // Every attempt below the number of a job's calls has its call.
  lemma {:induction false} AttemptsMade(journal: seq<Event>, j: nat, attempt: nat, n: nat)
    requires JournalOk(journal) && n <= |journal|
    ensures CallAt(journal, j, attempt, n).Some? <==> attempt < Calls(journal, j, n)
  {
    if n > 0 {
      AttemptsMade(journal, j, attempt, n - 1);
      assert EventOk(journal, n - 1);
    }
  }

  // ---------- What every run keeps ----------

  // A job has no more calls than its turn leaves it; one that observes again has consumed
  // what the job before it had made by then.
  predicate JobOk(s: State, j: nat)
    requires j < |s.jobs|
  {
    && s.jobs[j].consumed + CallsOf(s, j) <= TURN_CALLS
    && (match s.jobs[j].refreshed
        case None => s.jobs[j].consumed == 0
        case Some(p) => Continues(s, p, j))
  }

  predicate Continues(s: State, p: nat, j: nat)
    requires j < |s.jobs|
  {
    p < j && s.jobs[p].message == s.jobs[j].message
    && s.jobs[p].consumed < s.jobs[j].consumed <= s.jobs[p].consumed + CallsOf(s, p)
  }

  // A decision with an action is one of a turn that was classified as a command.
  predicate Vouched(s: State, j: nat, d: Decision)
    requires j < |s.jobs|
  {
    d.action != "respond" ==> PurposeOf(s.journal, s.jobs[j].message, |s.journal|) == Some(Command)
  }

  // A worker's count is of calls there still are.
  predicate PcOk(s: State, w: nat, pc: Pc) {
    match pc
    case Counted(j, attempt) => j < |s.jobs| && attempt <= CallsOf(s, j) && s.jobs[j].consumed + attempt < TURN_CALLS
    case Called(j, attempt) => j < |s.jobs| && attempt < CallsOf(s, j)
    case Vetted(j, attempt, reply) => j < |s.jobs| && attempt < CallsOf(s, j) && (reply.Accepted? ==> Consistent(reply.decision, V4))
    case Judged(j, attempt, d) => j < |s.jobs| && attempt < CallsOf(s, j) && Vouched(s, j, d)
    case _ => true
  }

  predicate DecisionOk(s: State, i: nat)
    requires i < |s.journal|
  {
    match s.journal[i]
    case Decided(_, j, _) => j < |s.jobs| && CallsOf(s, j) >= 1
    case ModelCall(j, _, _) => j < |s.jobs|
    case _ => true
  }

  ghost predicate Inv(s: State) {
    && JournalOk(s.journal)
    && (forall j | 0 <= j < |s.jobs| :: JobOk(s, j))
    && (forall w | w in s.pcs :: PcOk(s, w, s.pcs[w]))
    && (forall i | 0 <= i < |s.journal| :: DecisionOk(s, i))
  }

  // ---------- What runs keep that revive no decided job ----------

  // A count whose call is not yet journaled, and a place in the loop whose call is.
  predicate Unspent(s: State, pc: Pc) {
    pc.Counted? && pc.attempt >= CallsOf(s, pc.job)
  }

  predicate Spent(s: State, pc: Pc) {
    (pc.Counted? || pc.Called? || pc.Vetted? || pc.Judged?) && pc.attempt < CallsOf(s, pc.job)
  }

  predicate OverIn(s: State, j: nat) {
    j < |s.jobs| && s.jobs[j].state == Succeeded
  }

  // The job before j is over, and what j has consumed is all that it made.
  predicate LinkExact(s: State, j: nat)
    requires j < |s.jobs|
  {
    s.jobs[j].refreshed.Some? ==>
      OverIn(s, s.jobs[j].refreshed.value)
      && s.jobs[j].consumed == s.jobs[s.jobs[j].refreshed.value].consumed + CallsOf(s, s.jobs[j].refreshed.value)
  }

  // While one worker holds an unspent count, another that has spent its own has lost
  // the job.
  predicate PairOk(s: State, v: nat, w: nat) {
    v != w && Unspent(s, At(s, v)) && Spent(s, At(s, w)) && At(s, v).job == At(s, w).job ==> !Live(s, At(s, w).job, w)
  }

  predicate DecidedOver(s: State, i: nat)
    requires i < |s.journal|
  {
    s.journal[i].Decided? ==> OverIn(s, s.journal[i].job)
  }

  ghost predicate Strict(s: State) {
    && (forall j | 0 <= j < |s.jobs| :: LinkExact(s, j))
    && (forall w | w in s.pcs :: Unspent(s, s.pcs[w]) ==> !OverIn(s, s.pcs[w].job))
    && (forall v, w | v in s.pcs && w in s.pcs :: PairOk(s, v, w))
    && (forall i | 0 <= i < |s.journal| :: DecidedOver(s, i))
  }

  // A session writes back, over a job that has decided, a row that it read before.
  predicate Revives(s: State, step: Step) {
    && (step.Expire? || step.Retry? || step.Cancel?)
    && Holds(s, step.session) && OverIn(s, s.held[step.session].job)
    && var row := s.held[step.session].row;
       (step.Expire? ==> UnderWay(row.state))
       && (step.Retry? ==> Dead(row.state) && row.attempts < MAX_ATTEMPTS)
       && (step.Cancel? ==> row.state == Queued)
  }

  predicate NoRevival(s: State, steps: seq<Step>)
    decreases |steps|
  {
    steps == [] || (!Revives(s, steps[0]) && NoRevival(Next(s, steps[0]), steps[1..]))
  }

  // ---------- Steps that make no call ----------

  ghost predicate SameCalls(s: State, t: State) {
    forall j: nat :: CallsOf(t, j) == CallsOf(s, j)
  }

  predicate JobsFollow(s: State, t: State) {
    |s.jobs| <= |t.jobs| && forall j | 0 <= j < |s.jobs| ::
      t.jobs[j] == s.jobs[j].(state := t.jobs[j].state, owner := t.jobs[j].owner, attempts := t.jobs[j].attempts)
  }

  predicate OversStay(s: State, t: State) {
    forall j | 0 <= j < |s.jobs| && OverIn(s, j) :: OverIn(t, j)
  }

  lemma JobsKept(s: State, t: State, j: nat)
    requires Inv(s) && SameCalls(s, t) && JobsFollow(s, t) && j < |s.jobs|
    ensures JobOk(t, j)
  {
    assert JobOk(s, j);
    assert CallsOf(t, j) == CallsOf(s, j);
    if s.jobs[j].refreshed.Some? {
      assert CallsOf(t, s.jobs[j].refreshed.value) == CallsOf(s, s.jobs[j].refreshed.value);
    }
  }

  lemma VouchedKept(s: State, t: State, j: nat, d: Decision)
    requires j < |s.jobs| && Vouched(s, j, d) && JobsFollow(s, t) && s.journal <= t.journal
    ensures j < |t.jobs| && Vouched(t, j, d)
  {
    PurposePrefix(s.journal, t.journal, s.jobs[j].message, |s.journal|);
    PurposeStays(t.journal, s.jobs[j].message, |s.journal|, |t.journal|);
  }

  lemma PcKept(s: State, t: State, w: nat, pc: Pc)
    requires PcOk(s, w, pc) && JobsFollow(s, t) && s.journal <= t.journal
    requires forall k: nat :: CallsOf(t, k) >= CallsOf(s, k)
    ensures PcOk(t, w, pc)
  {
    if pc.Judged? {
      VouchedKept(s, t, pc.job, pc.decision);
    }
  }

  // Whoever takes the step, or nobody.
  lemma StepOk(s: State, t: State)
    requires Inv(s) && JournalOk(t.journal) && s.journal <= t.journal && SameCalls(s, t) && JobsFollow(s, t)
    requires forall v | v in t.pcs :: (v in s.pcs && t.pcs[v] == s.pcs[v]) || PcOk(t, v, t.pcs[v])
    requires forall j | |s.jobs| <= j < |t.jobs| :: JobOk(t, j)
    requires forall i | |s.journal| <= i < |t.journal| :: DecisionOk(t, i)
    ensures Inv(t)
  {
    forall j | 0 <= j < |t.jobs| ensures JobOk(t, j) {
      if j < |s.jobs| {
        JobsKept(s, t, j);
      }
    }
    forall v | v in t.pcs ensures PcOk(t, v, t.pcs[v]) {
      if v in s.pcs && t.pcs[v] == s.pcs[v] {
        PcKept(s, t, v, s.pcs[v]);
      }
    }
    forall i | 0 <= i < |t.journal| ensures DecisionOk(t, i) {
      if i < |s.journal| {
        assert DecisionOk(s, i);
        assert t.journal[i] == s.journal[i];
      }
    }
  }

  // Nobody but w gains a job, and none ends under another's unspent count.
  predicate OthersKept(s: State, t: State, w: nat, v: nat)
    requires v in s.pcs
  {
    v != w ==>
      (s.pcs[v] != Idle ==> Live(t, s.pcs[v].job, v) ==> Live(s, s.pcs[v].job, v))
      && (Unspent(s, s.pcs[v]) ==> OverIn(t, s.pcs[v].job) ==> OverIn(s, s.pcs[v].job))
  }

  // Where w may go: on with the call it has spent, or to a count of its live job.
  predicate Fresh(s: State, t: State, w: nat, pc: Pc) {
    match pc
    case Idle => true
    case Looping(_) => true
    case Counted(j, attempt) => Live(s, j, w) && Live(t, j, w) && attempt == CallsOf(s, j)
    case _ => At(s, w) != Idle && !At(s, w).Looping? && !At(s, w).Counted? && t.jobs == s.jobs && At(s, w).job == pc.job && At(s, w).attempt == pc.attempt
  }

  lemma PairsKept(s: State, t: State, w: nat, pc: Pc, v: nat, u: nat)
    requires Strict(s) && SameCalls(s, t) && t.pcs == s.pcs[w := pc] && Fresh(s, t, w, pc) && v in t.pcs && u in t.pcs
    requires forall x | x in s.pcs :: OthersKept(s, t, w, x)
    ensures PairOk(t, v, u)
  {
    if v in s.pcs && u in s.pcs {
      assert PairOk(s, v, u);
      assert OthersKept(s, t, w, u);
    }
  }

  lemma QuietStrict(s: State, t: State, w: nat, pc: Pc)
    requires Inv(s) && Strict(s) && s.journal <= t.journal && SameCalls(s, t) && JobsFollow(s, t) && OversStay(s, t)
    requires t.pcs == s.pcs[w := pc] && Fresh(s, t, w, pc)
    requires forall v | v in s.pcs :: OthersKept(s, t, w, v)
    requires forall j | |s.jobs| <= j < |t.jobs| :: LinkExact(t, j)
    requires forall i | |s.journal| <= i < |t.journal| :: DecidedOver(t, i)
    ensures Strict(t)
  {
    LinksKept(s, t);
    forall v | v in t.pcs && Unspent(t, t.pcs[v]) ensures !OverIn(t, t.pcs[v].job) {
      assert v != w ==> Unspent(s, s.pcs[v]) && OthersKept(s, t, w, v);
    }
    forall v, u | v in t.pcs && u in t.pcs ensures PairOk(t, v, u) {
      PairsKept(s, t, w, pc, v, u);
    }
    DecidedKept(s, t);
  }

  lemma LinksKept(s: State, t: State)
    requires Strict(s) && SameCalls(s, t) && JobsFollow(s, t) && OversStay(s, t)
    requires forall j | |s.jobs| <= j < |t.jobs| :: LinkExact(t, j)
    ensures forall j | 0 <= j < |t.jobs| :: LinkExact(t, j)
  {
    forall j | 0 <= j < |t.jobs| ensures LinkExact(t, j) {
      if j < |s.jobs| {
        assert LinkExact(s, j);
      }
    }
  }

  lemma DecidedKept(s: State, t: State)
    requires Strict(s) && s.journal <= t.journal && OversStay(s, t)
    requires forall i | |s.journal| <= i < |t.journal| :: DecidedOver(t, i)
    ensures forall i | 0 <= i < |t.journal| :: DecidedOver(t, i)
  {
    forall i | 0 <= i < |t.journal| ensures DecidedOver(t, i) {
      if i < |s.journal| {
        assert DecidedOver(s, i) && t.journal[i] == s.journal[i];
      }
    }
  }

  // The same for a step of no worker.
  lemma WorldStrict(s: State, t: State)
    requires Inv(s) && Strict(s) && s.journal <= t.journal && SameCalls(s, t) && JobsFollow(s, t) && OversStay(s, t) && t.pcs == s.pcs
    requires forall j | OverIn(t, j) :: OverIn(s, j)
    requires forall j, v | Live(t, j, v) :: Live(s, j, v)
    requires forall j | |s.jobs| <= j < |t.jobs| :: LinkExact(t, j)
    requires forall i | |s.journal| <= i < |t.journal| :: DecidedOver(t, i)
    ensures Strict(t)
  {
    LinksKept(s, t);
    forall v | v in t.pcs && Unspent(t, t.pcs[v]) ensures !OverIn(t, t.pcs[v].job) {
      assert Unspent(s, s.pcs[v]);
    }
    forall v, u | v in t.pcs && u in t.pcs ensures PairOk(t, v, u) {
      assert PairOk(s, v, u);
    }
    DecidedKept(s, t);
  }

  // ---------- Journal additions that are no calls ----------

  lemma {:induction false} NoCalls(journal: seq<Event>, more: seq<Event>, j: nat, n: nat)
    requires journal <= more && |journal| <= n <= |more|
    requires forall i | |journal| <= i < n :: !more[i].ModelCall?
    ensures Calls(more, j, n) == Calls(journal, j, |journal|)
  {
    if n == |journal| {
      CallsPrefix(journal, more, j, n);
    } else {
      NoCalls(journal, more, j, n - 1);
    }
  }

  lemma CallsSame(s: State, t: State)
    requires s.journal <= t.journal && forall i | |s.journal| <= i < |t.journal| :: !t.journal[i].ModelCall?
    ensures SameCalls(s, t)
  {
    forall j: nat ensures CallsOf(t, j) == CallsOf(s, j) {
      NoCalls(s.journal, t.journal, j, |t.journal|);
    }
  }

  lemma ClassifyKeeps(journal: seq<Event>, message: nat, purpose: Purpose)
    requires JournalOk(journal) && Classify(journal, message, purpose).Some?
    ensures var after := Classify(journal, message, purpose).value;
      JournalOk(after) && journal <= after && |after| <= |journal| + 1
      && (forall i | |journal| <= i < |after| :: after[i].Classified?)
      && (purpose == Command ==> PurposeOf(after, message, |after|) == Some(Command))
  {
    if PurposeOf(journal, message, |journal|).None? {
      var e := Classified(message, purpose);
      PurposePrefix(journal, journal + [e], message, |journal|);
      JournalGrows(journal, e);
    }
  }

  lemma {:induction false} ReadsKeep(journal: seq<Event>, j: nat, n: nat)
    requires JournalOk(journal)
    ensures JournalOk(journal + ReadEvents(j, n))
  {
    if n > 0 {
      ReadsKeep(journal, j, n - 1);
      var before := journal + ReadEvents(j, n - 1);
      assert journal + ReadEvents(j, n) == before + [ReadDone(j)];
      JournalGrows(before, ReadDone(j));
    } else {
      assert journal + ReadEvents(j, n) == journal;
    }
  }

  // ---------- Each step ----------

  // Every step keeps Inv, and Strict if it revives nothing.
  ghost predicate Keeps(s: State, t: State) {
    Inv(t) && (Strict(s) ==> Strict(t))
  }

  lemma FailingKeeps(s: State, w: nat, j: nat)
    requires Inv(s)
    ensures Keeps(s, Failing(s, w, j))
  {
    var t := Failing(s, w, j);
    StepOk(s, t);
    if Strict(s) {
      QuietStrict(s, t, w, Idle);
    }
  }

  lemma LoopAgain(s: State, w: nat, j: nat)
    requires Inv(s)
    ensures Keeps(s, Moved(s, w, Looping(j)))
  {
    var t := Moved(s, w, Looping(j));
    StepOk(s, t);
    if Strict(s) {
      QuietStrict(s, t, w, Looping(j));
    }
  }

  lemma LeaseKeeps(s: State, w: nat, j: nat)
    requires Inv(s)
    ensures Keeps(s, Next(s, Lease(w, j)))
  {
    var t := Next(s, Lease(w, j));
    if t != s {
      StepOk(s, t);
      if Strict(s) {
        QuietStrict(s, t, w, Looping(j));
      }
    }
  }

  lemma CountKeeps(s: State, w: nat)
    requires Inv(s)
    ensures Keeps(s, Next(s, CountCalls(w)))
  {
    match At(s, w)
    case Looping(j) =>
      if !Live(s, j, w) || CallsOf(s, j) >= MaxCalls(s.jobs[j]) {
        FailingKeeps(s, w, j);
      } else {
        assert JobOk(s, j);
        var t := Next(s, CountCalls(w));
        StepOk(s, t);
        if Strict(s) {
          QuietStrict(s, t, w, Counted(j, CallsOf(s, j)));
        }
      }
    case _ =>
  }

  lemma JournalOnly(s: State, journal: seq<Event>)
    requires Inv(s) && JournalOk(journal) && s.journal <= journal
    requires forall i | |s.journal| <= i < |journal| :: !journal[i].ModelCall? && !journal[i].Decided?
    ensures Keeps(s, s.(journal := journal))
  {
    var t := s.(journal := journal);
    CallsSame(s, t);
    StepOk(s, t);
    if Strict(s) {
      WorldStrict(s, t);
    }
  }

  lemma CheckKeeps(s: State, w: nat, reply: Reply)
    requires Inv(s)
    ensures Keeps(s, Next(s, CheckReply(w, reply)))
  {
    match At(s, w)
    case Called(j, attempt) =>
      assert PcOk(s, w, s.pcs[w]);
      FailingKeeps(s, w, j);
      if Next(s, CheckReply(w, reply)) == Moved(s, w, Vetted(j, attempt, reply)) {
        StepOk(s, Moved(s, w, Vetted(j, attempt, reply)));
        if Strict(s) {
          QuietStrict(s, Moved(s, w, Vetted(j, attempt, reply)), w, Vetted(j, attempt, reply));
        }
      }
    case _ =>
  }

  lemma RejectKeeps(s: State, w: nat, j: nat, attempt: nat, output: string)
    requires Inv(s) && j < |s.jobs|
    ensures Keeps(s, RejectedAs(s, w, j, attempt, output))
  {
    FailingKeeps(s, w, j);
    LoopAgain(s, w, j);
    var t := s.(journal := s.journal + [Rejected(j, attempt, output)]);
    JournalGrows(s.journal, Rejected(j, attempt, output));
    JournalOnly(s, t.journal);
    FailingKeeps(t, w, j);
    LoopAgain(t, w, j);
  }

  lemma JudgeKeeps(s: State, w: nat, j: nat, attempt: nat, d: Decision)
    requires Inv(s) && At(s, w) == Vetted(j, attempt, Accepted(d)) && j < |s.jobs|
    ensures Keeps(s, Judge(s, w, j, attempt, d))
  {
    assert PcOk(s, w, s.pcs[w]);
    FailingKeeps(s, w, j);
    var purpose := Effective(d);
    var journal := if purpose.Some? then Classify(s.journal, s.jobs[j].message, purpose.value) else Some(s.journal);
    if journal.Some? {
      if purpose.Some? {
        ClassifyKeeps(s.journal, s.jobs[j].message, purpose.value);
      }
      var t := s.(journal := journal.value);
      JournalOnly(s, journal.value);
      assert d.action != "respond" ==> purpose == Some(Command);
      JudgedKeeps(t, w, j, attempt, d);
    }
  }

  lemma JudgedKeeps(s: State, w: nat, j: nat, attempt: nat, d: Decision)
    requires Inv(s) && At(s, w) == Vetted(j, attempt, Accepted(d)) && j < |s.jobs| && Vouched(s, j, d)
    ensures Keeps(s, Moved(s, w, Judged(j, attempt, d)))
  {
    var t := Moved(s, w, Judged(j, attempt, d));
    assert PcOk(s, w, s.pcs[w]);
    StepOk(s, t);
    if Strict(s) {
      QuietStrict(s, t, w, Judged(j, attempt, d));
    }
  }

  // The state after a decision, journaled now or before.
  function DecisionMade(s: State, w: nat, j: nat, d: Decision): State
    requires j < |s.jobs|
  {
    var journal := if DecidedBy(s.journal, j) then s.journal else s.journal + [Decided(s.jobs[j].message, j, d.action)];
    Moved(WithJob(s.(journal := journal), j, s.jobs[j].(state := Succeeded, owner := None)), w, Idle)
  }

  // A job's decision ends it, and no unspent count of it is left anywhere.
  lemma DecideKeeps(s: State, w: nat, j: nat, attempt: nat, d: Decision)
    requires Inv(s) && At(s, w) == Judged(j, attempt, d) && Live(s, j, w)
    ensures Keeps(s, DecisionMade(s, w, j, d))
  {
    var e := Decided(s.jobs[j].message, j, d.action);
    var t := DecisionMade(s, w, j, d);
    assert PcOk(s, w, s.pcs[w]);
    PurposePrefix(s.journal, s.journal + [e], s.jobs[j].message, |s.journal|);
    JournalGrows(s.journal, e);
    CallsSame(s, t);
    assert CallsOf(t, j) == CallsOf(s, j);
    StepOk(s, t);
    if Strict(s) {
      forall v | v in s.pcs ensures OthersKept(s, t, w, v) {
        assert PairOk(s, v, w);
      }
      QuietStrict(s, t, w, Idle);
    }
  }

  lemma SettledKeeps(s: State, w: nat, j: nat, attempt: nat, d: Decision, facts: Facts)
    requires Inv(s) && At(s, w) == Judged(j, attempt, d) && j < |s.jobs|
    ensures Keeps(s, Settled(s, w, j, attempt, d, facts))
  {
    FailingKeeps(s, w, j);
    LoopAgain(s, w, j);
    var n := |d.requests|;
    ReadsKeep(s.journal, j, n);
    JournalOnly(s, s.journal + ReadEvents(j, n));
    LoopAgain(s.(journal := s.journal + ReadEvents(j, n)), w, j);
    if Live(s, j, w) {
      DecideKeeps(s, w, j, attempt, d);
    }
  }

  lemma CallAppended(s: State, j: nat, attempt: nat, input: string)
    requires JournalOk(s.journal) && attempt == CallsOf(s, j)
    ensures var more := s.journal + [ModelCall(j, attempt, input)];
      JournalOk(more) && Calls(more, j, |more|) == attempt + 1 && forall k: nat | k != j :: Calls(more, k, |more|) == CallsOf(s, k)
  {
    var more := s.journal + [ModelCall(j, attempt, input)];
    CallsPrefix(s.journal, more, j, |s.journal|);
    JournalGrows(s.journal, more[|s.journal|]);
    forall k: nat | k != j ensures Calls(more, k, |more|) == CallsOf(s, k) {
      CallsPrefix(s.journal, more, k, |s.journal|);
    }
  }

  // The call is journaled: every other unspent count of the job is spent by it.
  lemma NewCallKeeps(s: State, w: nat, j: nat, attempt: nat, input: string, invoked: seq<Invocation>)
    requires Inv(s) && At(s, w) == Counted(j, attempt) && attempt == CallsOf(s, j)
    ensures Keeps(s, Moved(s.(journal := s.journal + [ModelCall(j, attempt, input)], invoked := invoked), w, Called(j, attempt)))
  {
    var t := Moved(s.(journal := s.journal + [ModelCall(j, attempt, input)], invoked := invoked), w, Called(j, attempt));
    CallAppended(s, j, attempt, input);
    assert PcOk(s, w, s.pcs[w]);
    forall k | 0 <= k < |t.jobs| ensures JobOk(t, k) {
      assert JobOk(s, k);
    }
    forall v | v in t.pcs ensures PcOk(t, v, t.pcs[v]) {
      if v != w {
        PcKept(s, t, v, s.pcs[v]);
      }
    }
    forall i | 0 <= i < |t.journal| ensures DecisionOk(t, i) {
      if i < |s.journal| {
        assert DecisionOk(s, i);
      }
    }
    if Strict(s) {
      NewCallStrict(s, t, w, j);
    }
  }

  // No job that goes on from this one exists yet.
  lemma NewCallStrict(s: State, t: State, w: nat, j: nat)
    requires Inv(s) && Strict(s) && w in s.pcs && Unspent(s, s.pcs[w]) && s.pcs[w].job == j && t.jobs == s.jobs
    requires forall k: nat :: CallsOf(t, k) == CallsOf(s, k) + if k == j then 1 else 0
    requires t.pcs == s.pcs[w := Called(j, s.pcs[w].attempt)] && s.pcs[w].attempt == CallsOf(s, j)
    requires s.journal <= t.journal && |t.journal| == |s.journal| + 1 && !t.journal[|s.journal|].Decided?
    ensures Strict(t)
  {
    forall k | 0 <= k < |t.jobs| ensures LinkExact(t, k) {
      assert LinkExact(s, k);
    }
    forall v, u | v in t.pcs && u in t.pcs ensures PairOk(t, v, u) {
      assert PairOk(s, v, u) && PcOk(s, v, s.pcs[v]);
    }
    forall i | 0 <= i < |t.journal| ensures DecidedOver(t, i) {
      if i < |s.journal| {
        assert DecidedOver(s, i) && t.journal[i] == s.journal[i];
      }
    }
  }

  // The call was journaled before: only this worker's count is spent.
  lemma KnownCallKeeps(s: State, w: nat, j: nat, attempt: nat, invoked: seq<Invocation>)
    requires Inv(s) && At(s, w) == Counted(j, attempt) && attempt < CallsOf(s, j)
    ensures Keeps(s, Moved(s.(invoked := invoked), w, Called(j, attempt)))
  {
    var t := Moved(s.(invoked := invoked), w, Called(j, attempt));
    assert PcOk(s, w, s.pcs[w]);
    StepOk(s, t);
    if Strict(s) {
      LinksKept(s, t);
      forall v, u | v in t.pcs && u in t.pcs ensures PairOk(t, v, u) {
        assert PairOk(s, v, u);
      }
      DecidedKept(s, t);
    }
  }

  lemma CallKeeps(s: State, w: nat, input: string)
    requires Inv(s)
    ensures Keeps(s, Next(s, MakeCall(w, input)))
  {
    match At(s, w)
    case Counted(j, attempt) =>
      FailingKeeps(s, w, j);
      AttemptsMade(s.journal, j, attempt, |s.journal|);
      assert PcOk(s, w, s.pcs[w]);
      var invoked := s.invoked + [Invocation(j, attempt, attempt < CallsOf(s, j))];
      if attempt < CallsOf(s, j) {
        KnownCallKeeps(s, w, j, attempt, invoked);
      } else {
        NewCallKeeps(s, w, j, attempt, input, invoked);
      }
    case _ =>
  }

  lemma RefreshKeeps(s: State, decision: nat)
    requires Inv(s)
    ensures Keeps(s, Refresh(s, decision))
  {
    var t := Refresh(s, decision);
    if t != s {
      assert DecisionOk(s, decision);
      var past := s.journal[decision].job;
      JournalGrows(s.journal, Superseded(decision, |s.jobs|));
      CallsSame(s, t);
      NoCallsYet(s, |s.jobs|);
      assert JobOk(s, past);
      assert CallsOf(t, |s.jobs|) == CallsOf(s, |s.jobs|) && CallsOf(t, past) == CallsOf(s, past);
      StepOk(s, t);
      if Strict(s) {
        assert DecidedOver(s, decision);
        WorldStrict(s, t);
      }
    }
  }

  lemma {:induction false} NoCallsIn(s: State, j: nat, n: nat)
    requires (forall i | 0 <= i < |s.journal| :: DecisionOk(s, i)) && j >= |s.jobs| && n <= |s.journal|
    ensures Calls(s.journal, j, n) == 0
  {
    if n > 0 {
      NoCallsIn(s, j, n - 1);
      assert DecisionOk(s, n - 1);
    }
  }

  lemma NoCallsYet(s: State, j: nat)
    requires Inv(s) && j >= |s.jobs|
    ensures CallsOf(s, j) == 0
  {
    NoCallsIn(s, j, |s.journal|);
  }

  lemma NewTurnKeeps(s: State, message: nat)
    requires Inv(s)
    ensures Keeps(s, s.(jobs := s.jobs + [NewJob(message)]))
  {
    var t := s.(jobs := s.jobs + [NewJob(message)]);
    NoCallsYet(s, |s.jobs|);
    CallsSame(s, t);
    StepOk(s, t);
    if Strict(s) {
      WorldStrict(s, t);
    }
  }

  lemma ResumeKeeps(s: State, message: nat, source: nat)
    requires Inv(s)
    ensures Keeps(s, Next(s, ResumeTurn(message, source)))
  {
    NewTurnKeeps(s, message);
    var t := s.(jobs := s.jobs + [NewJob(message)]);
    if Classify(s.journal, message, Observe).Some? {
      ClassifyKeeps(s.journal, message, Observe);
      JournalOnly(t, Classify(s.journal, message, Observe).value);
    }
  }

  // A row written back moves no worker and makes no call.
  lemma RowKeeps(s: State, step: Step)
    requires Inv(s) && (step.ReadRow? || step.Expire? || step.Retry? || step.Cancel?)
    ensures Inv(Next(s, step)) && (Strict(s) && !Revives(s, step) ==> Strict(Next(s, step)))
  {
    var t := Next(s, step);
    RowSame(s, step);
    CallsSame(s, t);
    StepOk(s, t);
    if Strict(s) && !Revives(s, step) {
      RowStarts(s, step);
      WorldStrict(s, t);
    }
  }

  predicate OfWorker(step: Step) {
    step.Lease? || step.CountCalls? || step.MakeCall? || step.CheckReply? || step.TakeReply? || step.Settle? || step.Fail? || step.Crash?
  }

  lemma WorkerKeeps(s: State, step: Step)
    requires Inv(s) && OfWorker(step)
    ensures Keeps(s, Next(s, step))
  {
    match step
    case Lease(w, j) => LeaseKeeps(s, w, j);
    case CountCalls(w) => CountKeeps(s, w);
    case MakeCall(w, input) => CallKeeps(s, w, input);
    case CheckReply(w, reply) => CheckKeeps(s, w, reply);
    case TakeReply(w) => TakeKeeps(s, w);
    case Settle(w, facts) =>
      if At(s, w).Judged? {
        assert PcOk(s, w, s.pcs[w]);
        SettledKeeps(s, w, At(s, w).job, At(s, w).attempt, At(s, w).decision, facts);
      }
    case Fail(w) =>
      if !At(s, w).Idle? {
        FailingKeeps(s, w, At(s, w).job);
      }
    case Crash(w) => CrashKeeps(s, w);
  }

  lemma TakeKeeps(s: State, w: nat)
    requires Inv(s)
    ensures Keeps(s, Next(s, TakeReply(w)))
  {
    if At(s, w).Vetted? {
      assert PcOk(s, w, s.pcs[w]);
      match At(s, w).reply
      case Accepted(d) => JudgeKeeps(s, w, At(s, w).job, At(s, w).attempt, d);
      case Refused(output) => RejectKeeps(s, w, At(s, w).job, At(s, w).attempt, output);
    }
  }

  lemma CrashKeeps(s: State, w: nat)
    requires Inv(s)
    ensures Keeps(s, Moved(s, w, Idle))
  {
    StepOk(s, Moved(s, w, Idle));
    if Strict(s) {
      QuietStrict(s, Moved(s, w, Idle), w, Idle);
    }
  }

  lemma StepKeeps(s: State, step: Step)
    requires Inv(s)
    ensures Inv(Next(s, step)) && (Strict(s) && !Revives(s, step) ==> Strict(Next(s, step)))
  {
    if OfWorker(step) {
      WorkerKeeps(s, step);
    } else {
      match step
      case NewTurn(message) => NewTurnKeeps(s, message);
      case ResumeTurn(message, source) => ResumeKeeps(s, message, source);
      case RefreshDecision(d) => RefreshKeeps(s, d);
      case Unrelated =>
        JournalGrows(s.journal, OtherEvent);
        JournalOnly(s, s.journal + [OtherEvent]);
      case _ => RowKeeps(s, step);
    }
  }

  lemma {:induction false} RunKeeps(s: State, steps: seq<Step>)
    requires Inv(s)
    ensures Inv(After(s, steps)) && (Strict(s) && NoRevival(s, steps) ==> Strict(After(s, steps)))
    decreases |steps|
  {
    if steps != [] {
      StepKeeps(s, steps[0]);
      RunKeeps(Next(s, steps[0]), steps[1..]);
    }
  }

  lemma ReachableInv(steps: seq<Step>)
    ensures Inv(After(EMPTY, steps)) && (NoRevival(EMPTY, steps) ==> Strict(After(EMPTY, steps)))
  {
    RunKeeps(EMPTY, steps);
  }

  // ---------- The call budget of a turn ----------

  // The calls of a job and of all the jobs it goes on from.
  function TurnTotal(s: State, j: nat): nat
    requires j < |s.jobs| && forall k | 0 <= k < |s.jobs| :: JobOk(s, k)
    decreases j
  {
    assert JobOk(s, j);
    CallsOf(s, j) + if s.jobs[j].refreshed.Some? then TurnTotal(s, s.jobs[j].refreshed.value) else 0
  }

  // What job j has consumed is all that the job before it has made, by now.
  predicate LinkSums(s: State, j: nat)
    requires j < |s.jobs|
  {
    s.jobs[j].refreshed.Some? ==>
      s.jobs[j].refreshed.value < |s.jobs|
      && s.jobs[j].consumed == s.jobs[s.jobs[j].refreshed.value].consumed + CallsOf(s, s.jobs[j].refreshed.value)
  }

  // And so on back to the first job of the turn.
  predicate ExactTo(s: State, j: nat)
    requires j < |s.jobs| && forall k | 0 <= k < |s.jobs| :: JobOk(s, k)
    decreases j
  {
    assert JobOk(s, j);
    LinkSums(s, j) && (s.jobs[j].refreshed.Some? ==> ExactTo(s, s.jobs[j].refreshed.value))
  }

  // Four, three, two, one: what each job of a turn may make of its own.
  function Allowance(consumed: nat): nat
    requires consumed < TURN_CALLS
  {
    if consumed == 0 then TURN_CALLS else Allowance(consumed - 1) + TURN_CALLS - consumed
  }

  lemma {:induction false} AllowanceGrows(c: nat, d: nat)
    requires c <= d < TURN_CALLS
    ensures Allowance(c) <= Allowance(d) && (c < d ==> Allowance(c) + TURN_CALLS - d <= Allowance(d))
    decreases d
  {
    if c < d {
      AllowanceGrows(c, d - 1);
    }
  }

  predicate Within(s: State, j: nat)
    requires j < |s.jobs| && forall k | 0 <= k < |s.jobs| :: JobOk(s, k)
  {
    s.jobs[j].consumed + CallsOf(s, j) <= TurnTotal(s, j)
    && (s.jobs[j].consumed < TURN_CALLS ==> TurnTotal(s, j) <= Allowance(s.jobs[j].consumed))
    && (TurnTotal(s, j) == s.jobs[j].consumed + CallsOf(s, j) <==> ExactTo(s, j))
  }

  lemma {:induction false} TotalWithin(s: State, j: nat)
    requires Inv(s) && j < |s.jobs|
    ensures Within(s, j)
    decreases j
  {
    assert JobOk(s, j);
    if s.jobs[j].refreshed.Some? {
      var p := s.jobs[j].refreshed.value;
      TotalWithin(s, p);
      if s.jobs[j].consumed < TURN_CALLS {
        AllowanceGrows(s.jobs[p].consumed, s.jobs[j].consumed);
      }
    }
  }

  lemma {:induction false} StrictIsExact(s: State, j: nat)
    requires Inv(s) && Strict(s) && j < |s.jobs|
    ensures ExactTo(s, j)
    decreases j
  {
    assert JobOk(s, j) && LinkExact(s, j);
    if s.jobs[j].refreshed.Some? {
      StrictIsExact(s, s.jobs[j].refreshed.value);
    }
  }

  // In every run that revives no decided job, a turn journals at most four calls however
  // often it is observed again, and what a job has consumed and its own calls are the
  // turn's total at every step.
  lemma TurnMakesFourCalls(steps: seq<Step>, j: nat)
    requires NoRevival(EMPTY, steps) && j < |After(EMPTY, steps).jobs|
    ensures var s := After(EMPTY, steps);
      (forall k | 0 <= k < |s.jobs| :: JobOk(s, k)) && TurnTotal(s, j) == s.jobs[j].consumed + CallsOf(s, j) <= TURN_CALLS
  {
    ReachableInv(steps);
    var s := After(EMPTY, steps);
    TotalWithin(s, j);
    StrictIsExact(s, j);
    assert JobOk(s, j);
  }

  // In every run, a job makes no more calls of its own than its turn had left when it was
  // enqueued, so that a turn never journals more than ten; and the total is what its last
  // job has consumed and made exactly as long as no job of the turn has made a call since
  // it was observed again.
  lemma JobKeepsItsShare(steps: seq<Step>, j: nat)
    requires j < |After(EMPTY, steps).jobs|
    ensures var s := After(EMPTY, steps);
      (forall k | 0 <= k < |s.jobs| :: JobOk(s, k))
      && CallsOf(s, j) <= TURN_CALLS - s.jobs[j].consumed
      && s.jobs[j].consumed + CallsOf(s, j) <= TurnTotal(s, j) <= 10
      && (TurnTotal(s, j) == s.jobs[j].consumed + CallsOf(s, j) <==> ExactTo(s, j))
  {
    ReachableInv(steps);
    var s := After(EMPTY, steps);
    TotalWithin(s, j);
    assert JobOk(s, j);
    if s.jobs[j].consumed < TURN_CALLS {
      AllowanceGrows(s.jobs[j].consumed, 3);
      assert Allowance(3) == 10;
    } else {
      var p := s.jobs[j].refreshed.value;
      TotalWithin(s, p);
      AllowanceGrows(s.jobs[p].consumed, 3);
      assert Allowance(3) == 10;
    }
  }

  // The worker is about to journal a call of a job that has been observed again.
  predicate LateCall(s: State, step: Step) {
    step.MakeCall? && At(s, step.worker).Counted? && At(s, step.worker).attempt == CallsOf(s, At(s, step.worker).job)
    && Refreshed(s.jobs, At(s, step.worker).job)
  }

  ghost predicate AllSum(s: State) {
    forall j | 0 <= j < |s.jobs| :: LinkSums(s, j)
  }

  // The jobs are who they were, and none is new; and no call is journaled.
  predicate SameTurns(s: State, t: State) {
    JobsFollow(s, t) && |t.jobs| == |s.jobs| && NoCallAdded(s, t)
  }

  predicate NoCallAdded(s: State, t: State) {
    s.journal <= t.journal && forall i | |s.journal| <= i < |t.journal| :: !t.journal[i].ModelCall?
  }

  lemma WorkerSame(s: State, step: Step)
    requires OfWorker(step) && !step.MakeCall? && !step.TakeReply? && !step.Settle?
    ensures SameTurns(s, Next(s, step))
  {
  }

  lemma TakeSame(s: State, w: nat)
    ensures SameTurns(s, Next(s, TakeReply(w)))
  {
  }

  lemma SettleSame(s: State, w: nat, facts: Facts)
    ensures SameTurns(s, Next(s, Settle(w, facts)))
  {
  }

  lemma MakeSame(s: State, w: nat, input: string)
    ensures JobsFollow(s, Next(s, MakeCall(w, input))) && |Next(s, MakeCall(w, input)).jobs| == |s.jobs|
  {
  }

  lemma RowSame(s: State, step: Step)
    requires step.ReadRow? || step.Expire? || step.Retry? || step.Cancel?
    ensures var t := Next(s, step); SameTurns(s, t) && t.journal == s.journal && t.pcs == s.pcs && t.invoked == s.invoked
  {
  }

  // A row that is written back starts nothing, and ends no success but by reviving it.
  lemma RowStarts(s: State, step: Step)
    requires step.ReadRow? || step.Expire? || step.Retry? || step.Cancel?
    ensures var t := Next(s, step);
      (forall j, v | Live(t, j, v) :: Live(s, j, v)) && (forall j | OverIn(t, j) :: OverIn(s, j)) && (!Revives(s, step) ==> OversStay(s, t))
  {
  }

  // A job that observes again has consumed what the one before has made.
  predicate JobsAdded(s: State, t: State) {
    JobsFollow(s, t) && forall j | |s.jobs| <= j < |t.jobs| :: t.jobs[j].refreshed.Some? ==>
      t.jobs[j].refreshed.value < |s.jobs|
      && t.jobs[j].consumed == s.jobs[t.jobs[j].refreshed.value].consumed + CallsOf(s, t.jobs[j].refreshed.value)
  }

  lemma TurnsAdded(s: State, step: Step)
    requires step.NewTurn? || step.ResumeTurn? || step.RefreshDecision? || step.Unrelated?
    ensures JobsAdded(s, Next(s, step)) && NoCallAdded(s, Next(s, step))
  {
  }

  lemma JobsStep(s: State, step: Step)
    ensures JobsAdded(s, Next(s, step)) && (!step.MakeCall? ==> NoCallAdded(s, Next(s, step)))
    ensures !step.NewTurn? && !step.ResumeTurn? && !step.RefreshDecision? ==> |Next(s, step).jobs| == |s.jobs|
  {
    if OfWorker(step) {
      match step
      case MakeCall(w, input) => MakeSame(s, w, input);
      case TakeReply(w) => TakeSame(s, w);
      case Settle(w, facts) => SettleSame(s, w, facts);
      case _ => WorkerSame(s, step);
    } else if step.NewTurn? || step.ResumeTurn? || step.RefreshDecision? || step.Unrelated? {
      TurnsAdded(s, step);
    } else {
      RowSame(s, step);
    }
  }

  // From a state where every total is exact, a step spoils one exactly if it journals a
  // call of a job that has been observed again.
  lemma TotalsSpoiltIff(steps: seq<Step>, step: Step)
    requires AllSum(After(EMPTY, steps))
    ensures !AllSum(Next(After(EMPTY, steps), step)) <==> LateCall(After(EMPTY, steps), step)
  {
    ReachableInv(steps);
    var s := After(EMPTY, steps);
    var t := Next(s, step);
    JobsStep(s, step);
    if step.MakeCall? {
      CallSpoilsIff(s, step.worker, step.input);
    } else {
      CallsSame(s, t);
      forall j | 0 <= j < |t.jobs| ensures LinkSums(t, j) {
        assert j < |s.jobs| ==> LinkSums(s, j);
        if t.jobs[j].refreshed.Some? {
          assert CallsOf(t, t.jobs[j].refreshed.value) == CallsOf(s, t.jobs[j].refreshed.value);
        }
      }
    }
  }

  lemma CallSpoilsIff(s: State, w: nat, input: string)
    requires Inv(s) && AllSum(s)
    ensures !AllSum(Next(s, MakeCall(w, input))) <==> LateCall(s, MakeCall(w, input))
  {
    var t := Next(s, MakeCall(w, input));
    if At(s, w).Counted? {
      var j, attempt := At(s, w).job, At(s, w).attempt;
      AttemptsMade(s.journal, j, attempt, |s.journal|);
      assert PcOk(s, w, s.pcs[w]);
      if attempt == CallsOf(s, j) {
        CallAppended(s, j, attempt, input);
        forall k | 0 <= k < |t.jobs| ensures LinkSums(t, k) <==> t.jobs[k].refreshed != Some(j) {
          assert LinkSums(s, k);
        }
      } else {
        forall k | 0 <= k < |t.jobs| ensures LinkSums(t, k) {
          assert LinkSums(s, k);
        }
      }
    }
  }

  // Whoever makes the call, its lease lost or not: it is journaled exactly if the attempt
  // that was counted is still the next one, and nothing is journaled if it is not.
  lemma CallIsOfTheCountedAttempt(steps: seq<Step>, w: nat, j: nat, attempt: nat, input: string)
    requires At(After(EMPTY, steps), w) == Counted(j, attempt)
    ensures var s := After(EMPTY, steps);
      var t := Next(s, MakeCall(w, input));
      attempt <= CallsOf(s, j)
      && (t.journal == s.journal + [ModelCall(j, attempt, input)] <==> CallsOf(s, j) == attempt)
      && (t.journal == s.journal <==> CallsOf(s, j) > attempt)
  {
    ReachableInv(steps);
    var s := After(EMPTY, steps);
    assert PcOk(s, w, s.pcs[w]);
    AttemptsMade(s.journal, j, attempt, |s.journal|);
    assert |s.journal + [ModelCall(j, attempt, input)]| == |s.journal| + 1;
  }

  // A worker that goes round its loop again counts more calls than it did before, so it
  // goes round at most as often as it has calls.
  lemma LoopAdvances(steps: seq<Step>, more: seq<Step>, w: nat, j: nat, attempt: nat, later: nat)
    requires At(After(EMPTY, steps), w) == Called(j, attempt)
    requires var s := After(After(EMPTY, steps), more);
      At(s, w) == Looping(j) && At(Next(s, CountCalls(w)), w) == Counted(j, later)
    ensures attempt < later && later + After(After(EMPTY, steps), more).jobs[j].consumed < TURN_CALLS
  {
    ReachableInv(steps);
    var s := After(EMPTY, steps);
    var t := After(s, more);
    RunKeeps(s, more);
    assert PcOk(s, w, s.pcs[w]);
    CallsGrow(s, more, j);
    StepKeeps(t, CountCalls(w));
    assert JobOk(t, j);
  }

  lemma {:induction false} CallsGrow(s: State, steps: seq<Step>, j: nat)
    ensures CallsOf(s, j) <= CallsOf(After(s, steps), j)
    ensures s.journal <= After(s, steps).journal
    decreases |steps|
  {
    if steps != [] {
      var t := Next(s, steps[0]);
      OnlyAppends(s, steps[0]);
      CallsPrefix(s.journal, t.journal, j, |s.journal|);
      CallsMonotone(t.journal, j, |s.journal|, |t.journal|);
      CallsGrow(t, steps[1..], j);
    }
  }

  lemma {:induction false} CallsMonotone(journal: seq<Event>, j: nat, n: nat, m: nat)
    requires n <= m <= |journal|
    ensures Calls(journal, j, n) <= Calls(journal, j, m)
  {
    if n < m {
      CallsMonotone(journal, j, n, m - 1);
    }
  }

  lemma ClassifyAppends(journal: seq<Event>, message: nat, purpose: Purpose)
    requires Classify(journal, message, purpose).Some?
    ensures journal <= Classify(journal, message, purpose).value
  {
  }

  lemma JudgeAppends(s: State, w: nat, j: nat, attempt: nat, d: Decision)
    requires j < |s.jobs|
    ensures s.journal <= Judge(s, w, j, attempt, d).journal
  {
    var purpose := Effective(d);
    if purpose.Some? && Classify(s.journal, s.jobs[j].message, purpose.value).Some? {
      ClassifyAppends(s.journal, s.jobs[j].message, purpose.value);
    }
  }

  lemma OnlyAppends(s: State, step: Step)
    ensures s.journal <= Next(s, step).journal
  {
    if step.TakeReply? && At(s, step.worker).Vetted? && At(s, step.worker).job < |s.jobs| && At(s, step.worker).reply.Accepted? {
      JudgeAppends(s, step.worker, At(s, step.worker).job, At(s, step.worker).attempt, At(s, step.worker).reply.decision);
    }
  }

  // ---------- Observing again ----------

  predicate OnlyOnce(jobs: seq<Job>) {
    forall i, k | 0 <= i < k < |jobs| && jobs[i].refreshed.Some? :: jobs[i].refreshed != jobs[k].refreshed
  }

  lemma StepRefreshesOnce(s: State, step: Step)
    requires Inv(s) && OnlyOnce(s.jobs)
    ensures OnlyOnce(Next(s, step).jobs)
  {
    if step.RefreshDecision? {
      var jobs := Refresh(s, step.refused).jobs;
      assert forall i | 0 <= i < |s.jobs| :: jobs[i] == s.jobs[i];
    } else {
      NoneRefreshed(s, step);
    }
  }

  lemma NoneRefreshed(s: State, step: Step)
    requires !step.RefreshDecision?
    ensures var jobs := Next(s, step).jobs;
      |s.jobs| <= |jobs| && (forall i | 0 <= i < |s.jobs| :: jobs[i].refreshed == s.jobs[i].refreshed)
      && forall i | |s.jobs| <= i < |jobs| :: jobs[i].refreshed.None?
  {
    JobsStep(s, step);
  }

  lemma {:induction false} RunRefreshesOnce(s: State, steps: seq<Step>)
    requires Inv(s) && OnlyOnce(s.jobs)
    ensures OnlyOnce(After(s, steps).jobs)
    decreases |steps|
  {
    if steps != [] {
      StepKeeps(s, steps[0]);
      StepRefreshesOnce(s, steps[0]);
      RunRefreshesOnce(Next(s, steps[0]), steps[1..]);
    }
  }

  // In every run, a decision's job is observed again at most once, by a later job of its
  // message that has consumed more than it had, and no more than it has made by now; all
  // of that, if no decided job is revived.
  lemma RefreshedOnce(steps: seq<Step>, j: nat)
    requires j < |After(EMPTY, steps).jobs| && After(EMPTY, steps).jobs[j].refreshed.Some?
    ensures var s := After(EMPTY, steps);
      Continues(s, s.jobs[j].refreshed.value, j)
      && (NoRevival(EMPTY, steps) ==> LinkExact(s, j))
      && forall k | 0 <= k < |s.jobs| && k != j :: s.jobs[k].refreshed != s.jobs[j].refreshed
  {
    ReachableInv(steps);
    RunRefreshesOnce(EMPTY, steps);
    var s := After(EMPTY, steps);
    assert JobOk(s, j);
    forall k | 0 <= k < |s.jobs| && k != j ensures s.jobs[k].refreshed != s.jobs[j].refreshed {
      assert k < j || j < k;
    }
  }

  // ---------- Classification ----------

  lemma ClassifiedOnce(journal: seq<Event>, i: nat, k: nat)
    requires JournalOk(journal) && i < k < |journal| && journal[i].Classified? && journal[k].Classified?
    ensures journal[i].message != journal[k].message
  {
    assert EventOk(journal, k);
  }

  // A message is classified at most once, and keeps the classification it has.
  lemma ClassificationIsKept(steps: seq<Step>, more: seq<Step>, message: nat)
    ensures var s := After(EMPTY, steps);
      var t := After(s, more);
      (PurposeOf(s.journal, message, |s.journal|).Some? ==>
         PurposeOf(t.journal, message, |t.journal|) == PurposeOf(s.journal, message, |s.journal|))
      && forall i, k | 0 <= i < k < |t.journal| && t.journal[i].Classified? && t.journal[k].Classified? :: t.journal[i].message != t.journal[k].message
  {
    ReachableInv(steps);
    var s := After(EMPTY, steps);
    var t := After(s, more);
    RunKeeps(s, more);
    CallsGrow(s, more, 0);
    PurposePrefix(s.journal, t.journal, message, |s.journal|);
    PurposeStays(t.journal, message, |s.journal|, |t.journal|);
    forall i, k | 0 <= i < k < |t.journal| && t.journal[i].Classified? && t.journal[k].Classified?
      ensures t.journal[i].message != t.journal[k].message
    {
      ClassifiedOnce(t.journal, i, k);
    }
  }

  // No journal holds both an observation and an action of one message.
  lemma ObservationsNeverAct(steps: seq<Step>, i: nat, k: nat)
    requires var journal := After(EMPTY, steps).journal;
      i < |journal| && k < |journal| && journal[i].Classified? && journal[k].Decided? && journal[i].message == journal[k].message
      && journal[k].action != "respond"
    ensures After(EMPTY, steps).journal[i].purpose == Command
  {
    ReachableInv(steps);
    var journal := After(EMPTY, steps).journal;
    var message := journal[k].message;
    assert EventOk(journal, k) && EventOk(journal, i);
    PurposeStays(journal, message, k, |journal|);
    PurposeStays(journal, message, i + 1, |journal|);
    assert PurposeOf(journal, message, i + 1) == Some(journal[i].purpose);
  }

  // ---------- The loop itself ----------

  lemma {:induction false} OneMore(s: State, steps: seq<Step>, step: Step)
    ensures After(s, steps + [step]) == Next(After(s, steps), step)
    decreases |steps|
  {
    if steps == [] {
      assert steps + [step] == [step] && [step][1..] == [];
    } else {
      assert (steps + [step])[1..] == steps[1..] + [step];
      OneMore(Next(s, steps[0]), steps[1..], step);
    }
  }

  // One round: the call is counted and made, and the answer taken or rejected.
  lemma RoundMakesACall(s: State, w: nat, j: nat, input: string)
    requires Inv(s) && At(s, w) == Looping(j) && At(Next(s, CountCalls(w)), w) != Idle
    ensures var t := Next(Next(s, CountCalls(w)), MakeCall(w, input));
      Inv(t) && At(t, w).Called? && At(t, w).job == j && CallsOf(t, j) == CallsOf(s, j) + 1 && CallsOf(s, j) < TURN_CALLS
  {
    var mid := Next(s, CountCalls(w));
    StepKeeps(s, CountCalls(w));
    StepKeeps(mid, MakeCall(w, input));
    AttemptsMade(mid.journal, j, CallsOf(mid, j), |mid.journal|);
    CallAppended(mid, j, CallsOf(mid, j), input);
  }

  lemma CallsStay(s: State, step: Step, j: nat)
    ensures CallsOf(s, j) <= CallsOf(Next(s, step), j)
  {
    OnlyAppends(s, step);
    CallsPrefix(s.journal, Next(s, step).journal, j, |s.journal|);
    CallsMonotone(Next(s, step).journal, j, |s.journal|, |Next(s, step).journal|);
  }

  predicate Acceptable(reply: Reply) {
    reply.Accepted? ==> Consistent(reply.decision, V4)
  }

  predicate Onward(pc: Pc, j: nat) {
    pc == Idle || pc == Looping(j)
  }

  lemma CheckMovesOn(s: State, w: nat, j: nat, reply: Reply)
    requires At(s, w).Called? && At(s, w).job == j && Acceptable(reply)
    ensures var pc := At(Next(s, CheckReply(w, reply)), w); pc == Idle || (pc.Vetted? && pc.job == j)
  {
  }

  lemma TakingMovesOn(s: State, w: nat, j: nat)
    requires Inv(s) && At(s, w).Vetted? && At(s, w).job == j
    ensures var pc := At(Next(s, TakeReply(w)), w); Onward(pc, j) || (pc.Judged? && pc.job == j)
  {
    assert PcOk(s, w, s.pcs[w]);
  }

  lemma SettlingMovesOn(s: State, w: nat, j: nat, facts: Facts)
    requires Inv(s) && At(s, w).Judged? && At(s, w).job == j
    ensures Onward(At(Next(s, Settle(w, facts)), w), j)
  {
    assert PcOk(s, w, s.pcs[w]);
  }

  // execute_reasoning, undisturbed: its loop ends, with the job finished or failed.
  method ExecuteReasoning(s: State, w: nat, j: nat, input: nat -> string, reply: nat -> Reply, facts: nat -> Facts)
    returns (t: State, ghost steps: seq<Step>)
    requires Inv(s) && At(s, w) == Looping(j)
    requires forall n: nat :: Acceptable(reply(n))
    ensures t == After(s, steps) && Inv(t) && At(t, w) == Idle
  {
    t := s;
    steps := [];
    var n := 0;
    while true
      invariant t == After(s, steps) && Inv(t) && At(t, w) == Looping(j)
      decreases TURN_CALLS - CallsOf(t, j)
    {
      ghost var before := t;
      OneMore(s, steps, CountCalls(w));
      StepKeeps(t, CountCalls(w));
      t := Next(t, CountCalls(w));
      steps := steps + [CountCalls(w)];
      if At(t, w) == Idle {
        return;
      }
      RoundMakesACall(before, w, j, input(n));
      OneMore(s, steps, MakeCall(w, input(n)));
      t := Next(t, MakeCall(w, input(n)));
      steps := steps + [MakeCall(w, input(n))];
      t, steps := TakeStep(s, t, steps, w, j, CheckReply(w, reply(n)));
      if At(t, w).Vetted? {
        t, steps := TakeStep(s, t, steps, w, j, TakeReply(w));
        if At(t, w).Judged? {
          t, steps := TakeStep(s, t, steps, w, j, Settle(w, facts(n)));
        }
      }
      if At(t, w) == Idle {
        return;
      }
      n := n + 1;
    }
  }

  // One more step on the worker's way from its call to the next round.
  method TakeStep(s: State, t: State, ghost steps: seq<Step>, w: nat, j: nat, step: Step) returns (u: State, ghost more: seq<Step>)
    requires t == After(s, steps) && Inv(t) && !At(t, w).Idle? && At(t, w).job == j
    requires match step
      case CheckReply(v, reply) => v == w && At(t, w).Called? && Acceptable(reply)
      case TakeReply(v) => v == w && At(t, w).Vetted?
      case Settle(v, _) => v == w && At(t, w).Judged?
      case _ => false
    ensures u == After(s, more) && Inv(u) && CallsOf(t, j) <= CallsOf(u, j)
    ensures step.CheckReply? ==> At(u, w) == Idle || (At(u, w).Vetted? && At(u, w).job == j)
    ensures step.TakeReply? ==> Onward(At(u, w), j) || (At(u, w).Judged? && At(u, w).job == j)
    ensures step.Settle? ==> Onward(At(u, w), j)
  {
    if step.CheckReply? {
      CheckMovesOn(t, w, j, step.reply);
    } else if step.TakeReply? {
      TakingMovesOn(t, w, j);
    } else {
      SettlingMovesOn(t, w, j, step.facts);
    }
    OneMore(s, steps, step);
    StepKeeps(t, step);
    CallsStay(t, step, j);
    u := Next(t, step);
    more := steps + [step];
  }
}
