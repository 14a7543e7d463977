// app/coding_budget.py, with the parts of app/coding.py, app/coding_reads.py and
// app/contribution_workflow.py that spend the budget: the model calls of a chain of
// proposal jobs, counted under the job the chain began with.
module ProposalBudget {
  import opened Prelude
  import opened Jobs

  const DEFAULT_LIMIT := 6
  const EXTENDED_LIMIT := 8

  // What a grant is bound to: the frozen inputs of the root job's attempt.
  type Binding = nat

  // content_hash over version, binding, use, limit and grant, which identifies them.
  datatype Revision = Revision(binding: Binding, used: nat, limit: nat, grant: Option<nat>)

  // A user's decision: the exact extension of one exhausted chain.
  datatype Decision = Decision(root: nat, failedJob: nat, expected: Revision, instruction: string)

  datatype Event =
    | Call(root: nat, job: nat, attempt: nat)
    | Extended(root: nat, request: Decision, binding: Binding, previous: int, limit: int, used: int, job: nat, byMaintenance: bool)
    | OtherEvent

  datatype Kind = Proposal | SourceRead

  // StructureInvalid and EditInvalid stand for the refusals that a draft may be corrected for.
  datatype Failure = NoFailure | BudgetExceeded | CallBudgetExceeded | StructureInvalid | EditInvalid | OtherFailure

  // root is the root_job_id of the payload, absent on the root itself; parent is the job
  // that enqueued this one, and recovery tells whether to recover its refused read.
  datatype Job = Job(
    kind: Kind, root: Option<nat>, parent: Option<nat>, state: JobState, owner: Option<nat>,
    attempts: nat, failure: Failure, recovery: bool)

  // max_attempts: proposals are enqueued with three, source reads with the default.
  function MaxAttempts(kind: Kind): nat {
    match kind
    case Proposal => 3
    case SourceRead => 1
  }

  // What a worker holds from reading the budget, through the lease check, to journaling
  // its call. attempt is the attempt number it was leased with.
  datatype Measured = Measured(job: nat, attempt: nat, root: nat, used: nat, checked: bool)

  // A row as a session has read it; passed once it has found budget left for a resumption.
  datatype Held = Held(job: nat, row: Job, passed: bool)

  // held are the rows that sessions outside any transaction are about to write back.
  datatype State = State(jobs: seq<Job>, journal: seq<Event>, measured: map<nat, Measured>, held: map<nat, Held>)

  datatype BudgetError = InvalidGrant | Stale | Differs | Refused

  datatype Budget = Budget(limit: nat, used: nat, remaining: nat, grant: Option<nat>, revision: Revision)

  // ---------- proposal_budget ----------

  function Calls(journal: seq<Event>, root: nat, n: nat): (c: nat)
    requires n <= |journal|
    ensures c <= n
  {
    if n == 0 then 0
    else Calls(journal, root, n - 1) + if journal[n - 1].Call? && journal[n - 1].root == root then 1 else 0
  }

  predicate ValidGrant(e: Event, root: nat, binding: Binding, calls: nat)
    requires e.Extended?
  {
    e.byMaintenance && e.job == e.request.failedJob && e.binding == binding && e.request.root == root
    && e.request.expected == Revision(binding, DEFAULT_LIMIT, DEFAULT_LIMIT, None)
    && e.previous == DEFAULT_LIMIT && e.limit == EXTENDED_LIMIT && e.used == DEFAULT_LIMIT && calls == DEFAULT_LIMIT
  }

  // The one grant among the first n events; any other grant of this root is an error.
  function Grant(journal: seq<Event>, root: nat, binding: Binding, n: nat): Result<Option<nat>, BudgetError>
    requires n <= |journal|
  {
    if n == 0 then Ok(None)
    else
      var earlier :- Grant(journal, root, binding, n - 1);
      var e := journal[n - 1];
      if !e.Extended? || e.root != root then Ok(earlier)
      else if earlier.Some? || !ValidGrant(e, root, binding, Calls(journal, root, n - 1)) then Err(InvalidGrant)
      else Ok(Some(n - 1))
  }

  function Limit(grant: Option<nat>): nat {
    if grant.Some? then EXTENDED_LIMIT else DEFAULT_LIMIT
  }

  function BudgetOf(journal: seq<Event>, root: nat, binding: Binding): Result<Budget, BudgetError> {
    var grant :- Grant(journal, root, binding, |journal|);
    var used := Calls(journal, root, |journal|);
    var limit := Limit(grant);
    Ok(Budget(limit, used, if limit > used then limit - used else 0, grant, Revision(binding, used, limit, grant)))
  }

  method ReadBudget(journal: seq<Event>, root: nat, binding: Binding) returns (r: Result<Budget, BudgetError>)
    ensures r == BudgetOf(journal, root, binding)
  {
    var limit, grant := DEFAULT_LIMIT, None;
    var used := 0;
    for i := 0 to |journal|
      invariant used == Calls(journal, root, i)
      invariant Grant(journal, root, binding, i) == Ok(grant) && limit == Limit(grant)
      invariant BudgetOf(journal, root, binding).Ok? ==> Grant(journal, root, binding, |journal|).Ok?
    {
      var e := journal[i];
      if e.Extended? && e.root == root {
        if grant.Some? || !ValidGrant(e, root, binding, used) {
          RefusedFor(journal, root, binding, i + 1);
          return Err(InvalidGrant);
        }
        limit, grant := EXTENDED_LIMIT, Some(i);
      }
      if e.Call? && e.root == root {
        used := used + 1;
      }
    }
    return Ok(Budget(limit, used, if limit > used then limit - used else 0, grant, Revision(binding, used, limit, grant)));
  }

  // A refused history stays refused.
  lemma {:induction false} RefusedFor(journal: seq<Event>, root: nat, binding: Binding, n: nat)
    requires n <= |journal| && Grant(journal, root, binding, n) == Err(InvalidGrant)
    ensures Grant(journal, root, binding, |journal|) == Err(InvalidGrant)
    decreases |journal| - n
  {
    if n < |journal| {
      RefusedFor(journal, root, binding, n + 1);
    }
  }

  // ---------- Jobs and their roots ----------

  // payload.get("root_job_id", job.id)
  function RootOf(jobs: seq<Job>, j: nat): nat
    requires j < |jobs|
  {
    if jobs[j].root.Some? then jobs[j].root.value else j
  }

  predicate Live(s: State, j: nat, w: nat) {
    j < |s.jobs| && s.jobs[j].state == Running && s.jobs[j].owner == Some(w)
  }

  function WithJob(s: State, j: nat, job: Job): State
    requires j < |s.jobs|
  {
    s.(jobs := s.jobs[j := job])
  }

  function Finish(s: State, j: nat, state: JobState, failure: Failure): State
    requires j < |s.jobs|
  {
    WithJob(s, j, s.jobs[j].(state := state, owner := None, failure := failure))
  }

  // A job that continues this chain: the root is carried through.
  function Child(s: State, j: nat, kind: Kind, recovery: bool): State
    requires j < |s.jobs|
  {
    s.(jobs := s.jobs + [Job(kind, Some(RootOf(s.jobs, j)), Some(j), Queued, None, 0, NoFailure, recovery)])
  }

  predicate Idle(jobs: seq<Job>) {
    forall j | 0 <= j < |jobs| :: Terminal(jobs[j].state)
  }

  // ---------- extend_and_resume ----------

  // _root: the decision must name a job that a chain began with.
  predicate IsRoot(jobs: seq<Job>, r: nat) {
    r < |jobs| && jobs[r].kind == Proposal && RootOf(jobs, r) == r
  }

  function GrantedTo(journal: seq<Event>, root: nat, n: nat): (r: Option<nat>)
    requires n <= |journal|
    ensures r.Some? ==> r.value < n && journal[r.value].Extended? && journal[r.value].root == root
    ensures r.None? ==> forall k | 0 <= k < n :: !(journal[k].Extended? && journal[k].root == root)
  {
    if n == 0 then None
    else if journal[n - 1].Extended? && journal[n - 1].root == root then Some(n - 1)
    else GrantedTo(journal, root, n - 1)
  }

  predicate Extendable(s: State, j: nat, root: nat) {
    j < |s.jobs| && s.jobs[j].kind == Proposal && s.jobs[j].state == Failed
    && (s.jobs[j].failure == BudgetExceeded || s.jobs[j].failure == CallBudgetExceeded)
    && s.jobs[j].attempts < MaxAttempts(Proposal) && RootOf(s.jobs, j) == root && Idle(s.jobs)
  }

  // bindings gives the frozen binding of each root. authorized stands for what else is
  // asked of the task: recovery authorization, settled messages, no proposal so far.
  function Extend(s: State, bindings: nat -> Binding, d: Decision, authorized: bool): Result<State, BudgetError> {
    if !IsRoot(s.jobs, d.root) then Err(InvalidGrant)
    else
      var existing := GrantedTo(s.journal, d.root, |s.journal|);
      if existing.Some? then
        match BudgetOf(s.journal, d.root, bindings(d.root))
        case Err(e) => Err(e)
        case Ok(_) => if s.journal[existing.value].request != d then Err(Differs) else Ok(s)
      else
        match BudgetOf(s.journal, d.root, bindings(d.root))
        case Err(e) => Err(e)
        case Ok(budget) =>
          if budget.revision != d.expected || budget.used != DEFAULT_LIMIT || budget.limit != DEFAULT_LIMIT then Err(Stale)
          else if !authorized then Err(Refused)
          else if !Extendable(s, d.failedJob, d.root) then Err(Stale)
          else
            var e := Extended(d.root, d, bindings(d.root), DEFAULT_LIMIT, EXTENDED_LIMIT, budget.used, d.failedJob, true);
            Ok(WithJob(s.(journal := s.journal + [e]), d.failedJob, s.jobs[d.failedJob].(state := Queued, owner := None, failure := NoFailure)))
  }

  // The maintenance service: one decision, applied at once to journal and job.
  class BudgetService {
    var s: State

    constructor (s: State)
      ensures this.s == s
    {
      this.s := s;
    }

    method ExtendAndResume(bindings: nat -> Binding, d: Decision, authorized: bool) returns (r: Result<nat, BudgetError>)
      modifies this
      ensures match Extend(old(s), bindings, d, authorized)
        case Ok(next) => r == Ok(d.failedJob) && s == next
        case Err(e) => r == Err(e) && s == old(s)
    {
      if !IsRoot(s.jobs, d.root) {
        return Err(InvalidGrant);
      }
      var existing := GrantedTo(s.journal, d.root, |s.journal|);
      var budget := ReadBudget(s.journal, d.root, bindings(d.root));
      if budget.Err? {
        return Err(budget.error);
      }
      if existing.Some? {
        if s.journal[existing.value].request != d {
          return Err(Differs);
        }
        return Ok(d.failedJob);
      }
      var used := budget.value.used;
      if budget.value.revision != d.expected || used != DEFAULT_LIMIT || budget.value.limit != DEFAULT_LIMIT {
        return Err(Stale);
      }
      if !authorized {
        return Err(Refused);
      }
      if !Extendable(s, d.failedJob, d.root) {
        return Err(Stale);
      }
      s := s.(journal := s.journal + [Extended(d.root, d, bindings(d.root), DEFAULT_LIMIT, EXTENDED_LIMIT, used, d.failedJob, true)]);
      s := WithJob(s, d.failedJob, s.jobs[d.failedJob].(state := Queued, owner := None, failure := NoFailure));
      return Ok(d.failedJob);
    }
  }

  // ---------- Steps ----------

  datatype Step =
    | NewProposal
    | Lease(worker: nat, job: nat)
    | Measure(worker: nat, job: nat, attempt: nat)      // read the budget
    | Check(worker: nat)                                // check the lease
    | Record(worker: nat)                               // journal the call
    | Reject(worker: nat, job: nat, failure: Failure)   // the draft is refused
    | Read(worker: nat, job: nat)                       // a read of captured source
    | RequestSource(worker: nat, job: nat)              // a read of other source
    | FinishSource(worker: nat, job: nat)
    | Recover(job: nat)                                 // a refused read, recovered
    | Succeed(worker: nat, job: nat)
    | FailAs(worker: nat, job: nat, failure: Failure)
    | ReadRow(session: nat, job: nat)
    | PassBudget(session: nat)                          // retry_execution_job asks for a call left
    | Expire(session: nat, cancelled: bool)
    | Resume(session: nat)
    | Cancel(session: nat)
    | GrantMore(decision: Decision, authorized: bool)
    | Unrelated

  // Any worker that was ever leased the attempt may come to read the budget for it.
  function TakeMeasure(s: State, bindings: nat -> Binding, w: nat, j: nat, attempt: nat): State {
    if j >= |s.jobs| || s.jobs[j].kind != Proposal || !(1 <= attempt <= s.jobs[j].attempts) then s
    else
      var root := RootOf(s.jobs, j);
      match BudgetOf(s.journal, root, bindings(root))
      case Err(_) => if Live(s, j, w) then Finish(s, j, Failed, OtherFailure) else s
      case Ok(budget) =>
        if budget.remaining > 0 then s.(measured := s.measured[w := Measured(j, attempt, root, budget.used, false)])
        else if Live(s, j, w) then Finish(s, j, Failed, CallBudgetExceeded)
        else s
  }

  // The check asks for the worker's lease, not for its attempt.
  function CheckLease(s: State, w: nat): State {
    if w !in s.measured then s
    else if Live(s, s.measured[w].job, w) then s.(measured := s.measured[w := s.measured[w].(checked := true)])
    else s.(measured := s.measured - {w})
  }

  function CallOf(m: Measured): Event {
    Call(m.root, m.job, m.attempt)
  }

  // The append alone: its key names the job and the attempt, so a call is journaled once
  // for each attempt.
  function RecordCall(s: State, w: nat): State {
    if w !in s.measured || !s.measured[w].checked then s
    else
      var done := s.(measured := s.measured - {w});
      var e := CallOf(s.measured[w]);
      if e in s.journal then done else done.(journal := s.journal + [e])
  }

  function Retried(s: State, j: nat): State {
    if j >= |s.jobs| || !Dead(s.jobs[j].state) || s.jobs[j].attempts >= MaxAttempts(s.jobs[j].kind) then s
    else WithJob(s, j, s.jobs[j].(state := Queued, owner := None, failure := NoFailure))
  }

  // recover_expired, retry and request_cancel lock nothing. Each reads a row, and later
  // writes by its id those columns that it changed, whatever the row has become.
  predicate Holds(s: State, session: nat) {
    session in s.held && s.held[session].job < |s.jobs|
  }

  function PassRow(s: State, bindings: nat -> Binding, session: nat): State {
    if !Holds(s, session) then s
    else
      var h := s.held[session];
      var root := RootOf(s.jobs, h.job);
      match BudgetOf(s.journal, root, bindings(root))
      case Ok(budget) => if budget.remaining == 0 && h.row.kind == Proposal then s else s.(held := s.held[session := h.(passed := true)])
      case Err(_) => s
  }

  // What the session does to the state of the job, if anything.
  function Writes(step: Step, h: Held): Option<JobState> {
    match step
    case Expire(_, cancelled) => if UnderWay(h.row.state) then Some(Reaped(cancelled, h.row.attempts, MaxAttempts(h.row.kind))) else None
    case Resume(_) => if Dead(h.row.state) && h.row.attempts < MaxAttempts(h.row.kind) && h.passed then Some(Queued) else None
    case Cancel(_) => if h.row.state == Queued then Some(Cancelled) else None
    case _ => None
  }

  predicate OfRow(step: Step) {
    step.Expire? || step.Resume? || step.Cancel?
  }

  function WriteRow(s: State, step: Step): State
    requires OfRow(step)
  {
    if !Holds(s, step.session) then s
    else
      var h := s.held[step.session];
      var done := s.(held := s.held - {step.session});
      var job := s.jobs[h.job];
      match Writes(step, h)
      case None => done
      case Some(state) =>
        var owner := if step.Expire? || (step.Resume? && h.row.owner.Some?) then None else job.owner;
        var failure := if step.Expire? then OtherFailure else if step.Resume? then NoFailure else job.failure;
        WithJob(done, h.job, job.(state := state, owner := owner, failure := failure))
  }

  predicate Correctable(failure: Failure) {
    failure == StructureInvalid || failure == EditInvalid
  }

  predicate HasChild(jobs: seq<Job>, j: nat, recovery: bool) {
    exists k | j < k < |jobs| :: jobs[k].parent == Some(j) && jobs[k].recovery == recovery
  }

  // recovered_source_read: its job is keyed by the failed one.
  function Recovered(s: State, j: nat): State {
    if j < |s.jobs| && s.jobs[j].kind == Proposal && s.jobs[j].state == Failed && s.jobs[j].failure == StructureInvalid && !HasChild(s.jobs, j, true)
    then Child(s, j, SourceRead, true) else s
  }

  // complete_source_read: the next proposal is keyed by the result of this job.
  function SourceFinished(s: State, j: nat): State
    requires j < |s.jobs|
  {
    var done := Finish(s, j, Succeeded, NoFailure);
    if HasChild(s.jobs, j, false) then done else Child(done, j, Proposal, false)
  }

  function Next(s: State, bindings: nat -> Binding, step: Step): State {
    match step
    case NewProposal => s.(jobs := s.jobs + [Job(Proposal, None, None, Queued, None, 0, NoFailure, false)])
    case Lease(w, j) =>
      if j >= |s.jobs| || s.jobs[j].state != Queued then s
      else WithJob(s, j, s.jobs[j].(state := Running, owner := Some(w), attempts := s.jobs[j].attempts + 1))
    case Measure(w, j, attempt) => TakeMeasure(s, bindings, w, j, attempt)
    case Check(w) => CheckLease(s, w)
    case Record(w) => RecordCall(s, w)
    case Reject(w, j, failure) =>
      if !Live(s, j, w) || s.jobs[j].kind != Proposal then s
      else if Correctable(failure) then Retried(Finish(s, j, Failed, failure), j)
      else Finish(s, j, Failed, failure)
    case Read(w, j) => if Live(s, j, w) && s.jobs[j].kind == Proposal then Child(Finish(s, j, Succeeded, NoFailure), j, Proposal, false) else s
    case RequestSource(w, j) => if Live(s, j, w) && s.jobs[j].kind == Proposal then Child(Finish(s, j, Succeeded, NoFailure), j, SourceRead, false) else s
    case FinishSource(w, j) => if Live(s, j, w) && s.jobs[j].kind == SourceRead then SourceFinished(s, j) else s
    case Recover(j) => Recovered(s, j)
    case Succeed(w, j) => if Live(s, j, w) then Finish(s, j, Succeeded, NoFailure) else s
    case FailAs(w, j, failure) => if Live(s, j, w) then Finish(s, j, Failed, failure) else s
    case ReadRow(n, j) => if j < |s.jobs| then s.(held := s.held[n := Held(j, s.jobs[j], false)]) else s
    case PassBudget(n) => PassRow(s, bindings, n)
    case Expire(_, _) => WriteRow(s, step)
    case Resume(_) => WriteRow(s, step)
    case Cancel(_) => WriteRow(s, step)
    case GrantMore(d, authorized) => (match Extend(s, bindings, d, authorized) case Ok(next) => next case Err(_) => s)
    case Unrelated => s.(journal := s.journal + [OtherEvent])
  }

  const EMPTY := State([], [], map[], map[])

  function After(s: State, bindings: nat -> Binding, steps: seq<Step>): State
    decreases |steps|
  {
    if steps == [] then s else After(Next(s, bindings, steps[0]), bindings, steps[1..])
  }

  // ---------- What the append does not ask ----------

  // The worker still runs the attempt that it measured for.
  predicate Current(s: State, w: nat, m: Measured) {
    Live(s, m.job, w) && s.jobs[m.job].attempts == m.attempt
  }

  // A call about to be journaled.
  predicate NewCall(s: State, step: Step) {
    step.Record? && step.worker in s.measured && s.measured[step.worker].checked && CallOf(s.measured[step.worker]) !in s.journal
  }

  // By a worker whose measured attempt is over.
  predicate Lapsed(s: State, step: Step) {
    NewCall(s, step) && !Current(s, step.worker, s.measured[step.worker])
  }

  // By a worker whose attempt is current, but whose chain has made calls that it has not
  // measured.
  predicate Outpaced(s: State, step: Step) {
    NewCall(s, step) && Current(s, step.worker, s.measured[step.worker])
    && Calls(s.journal, s.measured[step.worker].root, |s.journal|) > s.measured[step.worker].used
  }

  // By a current worker, while another one holds a measure of the chain.
  predicate Rivalled(s: State, step: Step) {
    NewCall(s, step) && Current(s, step.worker, s.measured[step.worker])
    && exists v | v in s.measured :: v != step.worker && s.measured[v].root == s.measured[step.worker].root && Current(s, v, s.measured[v])
  }

  // How many lapsed or rivalled calls a run journals under one root.
  function LapsedCalls(s: State, bindings: nat -> Binding, steps: seq<Step>, root: nat): nat
    decreases |steps|
  {
    if steps == [] then 0
    else (if Lapsed(s, steps[0]) && s.measured[steps[0].worker].root == root then 1 else 0)
         + LapsedCalls(Next(s, bindings, steps[0]), bindings, steps[1..], root)
  }

  function RivalledCalls(s: State, bindings: nat -> Binding, steps: seq<Step>, root: nat): nat
    decreases |steps|
  {
    if steps == [] then 0
    else (if Rivalled(s, steps[0]) && s.measured[steps[0].worker].root == root then 1 else 0)
         + RivalledCalls(Next(s, bindings, steps[0]), bindings, steps[1..], root)
  }

  // No job of the chain comes after j.
  predicate IsLast(jobs: seq<Job>, j: nat)
    requires j < |jobs|
  {
    forall k | j < k < |jobs| :: RootOf(jobs, k) != RootOf(jobs, j)
  }

  // A session writes a state over a job that its chain has gone on from.
  predicate Reopens(s: State, step: Step) {
    OfRow(step) && Holds(s, step.session) && Writes(step, s.held[step.session]).Some? && !IsLast(s.jobs, s.held[step.session].job)
  }

  // A run in which every append finds its attempt current, and one that reopens nothing.
  predicate Fenced(s: State, bindings: nat -> Binding, steps: seq<Step>)
    decreases |steps|
  {
    steps == [] || (!Lapsed(s, steps[0]) && Fenced(Next(s, bindings, steps[0]), bindings, steps[1..]))
  }

  predicate NeverReopened(s: State, bindings: nat -> Binding, steps: seq<Step>)
    decreases |steps|
  {
    steps == [] || (!Reopens(s, steps[0]) && NeverReopened(Next(s, bindings, steps[0]), bindings, steps[1..]))
  }
}
