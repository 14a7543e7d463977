// app/contribution_workflow.py: a stop freezes which jobs it cancels, and the
// coordinator's ticks carry it out. A stop is one locked transaction. A tick is not: it
// reads the journal, reads the jobs, commits once for each job it cancels, looks again at
// the rows as it read them, and then moves the task. Anything may come in between. Reapers,
// cancellations and retries lock nothing either: they write rows as they have read them.
module StopScope {
  import opened Prelude
  import opened Jobs

  datatype Task = Planning | PlanApproved | Executing | Reviewing | Ready | OtherState

  // scope is None for stops recorded before scopes were; those reach back to their time.
  datatype Event =
    | StopRequested(key: string, scope: Option<set<nat>>, at: int, clock: nat)
    | Started
    | Authorized
    | ChangeRequested(stopKey: string)
    | PlanRequested(change: nat)
    | OtherEvent

  // write marks the remote writes that may not be stopped. born and since are the steps
  // at which the job was enqueued and last queued from rest.
  datatype Job = Job(write: bool, created: int, born: nat, since: nat, state: JobState, cancelRequested: bool)

  // Where a tick stands. journalAt is the journal's length when it was read, jobsAt the
  // step at which the jobs were, and view their states as this session has them.
  datatype Tick =
    | Resting
    | Standing(stop: nat, journalAt: nat)
    | Cancelling(stop: nat, journalAt: nat, jobsAt: nat, view: seq<JobState>, at: nat)
    | Checked(stop: nat, journalAt: nat, jobsAt: nat)
    | Replanning(stop: nat, journalAt: nat, jobsAt: nat, seen: nat)
    | Replanned(stop: nat)

  // A row as a session has read it.
  datatype Held = Held(job: nat, row: Job)

  // version counts the task's state versions; cancels lists which stop asked which job to
  // cancel; clock counts the steps; held are the rows that sessions may come to write.
  datatype State = State(
    journal: seq<Event>, jobs: seq<Job>, task: Task, version: nat, cancels: seq<(nat, nat)>, ticks: map<nat, Tick>, clock: nat,
    held: map<nat, Held>)

  // ---------- Reading the journal ----------

  function LatestStop(journal: seq<Event>, n: nat): (r: Option<nat>)
    requires n <= |journal|
    ensures r.Some? ==> r.value < n && journal[r.value].StopRequested?
    ensures forall k | (if r.Some? then r.value + 1 else 0) <= k < n :: !journal[k].StopRequested?
  {
    if n == 0 then None else if journal[n - 1].StopRequested? then Some(n - 1) else LatestStop(journal, n - 1)
  }

  function LatestStarted(journal: seq<Event>, n: nat): (r: Option<nat>)
    requires n <= |journal|
    ensures r.Some? ==> r.value < n && journal[r.value].Started?
    ensures forall k | (if r.Some? then r.value + 1 else 0) <= k < n :: !journal[k].Started?
  {
    if n == 0 then None else if journal[n - 1].Started? then Some(n - 1) else LatestStarted(journal, n - 1)
  }

  function LatestAuthorized(journal: seq<Event>, n: nat): (r: Option<nat>)
    requires n <= |journal|
    ensures r.Some? ==> r.value < n && journal[r.value].Authorized?
    ensures forall k | (if r.Some? then r.value + 1 else 0) <= k < n :: !journal[k].Authorized?
  {
    if n == 0 then None else if journal[n - 1].Authorized? then Some(n - 1) else LatestAuthorized(journal, n - 1)
  }

  function LatestChange(journal: seq<Event>, n: nat): (r: Option<nat>)
    requires n <= |journal|
    ensures r.Some? ==> r.value < n && journal[r.value].ChangeRequested?
  {
    if n == 0 then None else if journal[n - 1].ChangeRequested? then Some(n - 1) else LatestChange(journal, n - 1)
  }

  predicate After(a: Option<nat>, b: nat) {
    a.Some? && a.value > b
  }

  // The stop that a tick carries out: the latest of the first n events, unless the
  // execution was authorized or the automation started since.
  function StandingStop(journal: seq<Event>, n: nat): (r: Option<nat>)
    requires n <= |journal|
    ensures r.Some? ==> r == LatestStop(journal, n)
  {
    var stop := LatestStop(journal, n);
    if stop.Some? && !After(LatestAuthorized(journal, n), stop.value) && !After(LatestStarted(journal, n), stop.value)
    then stop else None
  }

  predicate IsStop(journal: seq<Event>, stop: nat) {
    stop < |journal| && journal[stop].StopRequested?
  }

  // _jobs_for_stop
  predicate InScope(s: State, stop: nat, j: nat)
    requires IsStop(s.journal, stop)
  {
    j < |s.jobs| &&
    match s.journal[stop].scope
    case Some(ids) => j in ids
    case None => s.jobs[j].created <= s.journal[stop].at
  }

  // ---------- Cancelling ----------

  // request_cancel on a row that was read with state seen: the row that is written back
  // is cancelled outright if it was seen queued, whatever it has become.
  function CancelSeen(job: Job, seen: JobState): Job {
    if Terminal(seen) then job
    else if seen == Queued then job.(state := Cancelled, cancelRequested := true)
    else job.(cancelRequested := true)
  }

  // Inside a lock, what is seen is what is there.
  function CancelJob(job: Job): Job {
    CancelSeen(job, job.state)
  }

  // request_cancel for the first n jobs that the stop concerns and that still run.
  function CancelScope(s: State, stop: nat, n: nat): (r: State)
    requires IsStop(s.journal, stop) && n <= |s.jobs|
    ensures r == s.(jobs := r.jobs, cancels := r.cancels) && |r.jobs| == |s.jobs|
    ensures forall j | 0 <= j < |s.jobs| :: r.jobs[j] == if j < n && InScope(s, stop, j) then CancelJob(s.jobs[j]) else s.jobs[j]
  {
    if n == 0 then s
    else
      var d := CancelScope(s, stop, n - 1);
      if InScope(s, stop, n - 1) && !Terminal(s.jobs[n - 1].state)
      then d.(jobs := d.jobs[n - 1 := CancelJob(s.jobs[n - 1])], cancels := d.cancels + [(stop, n - 1)]) else d
  }

  // ---------- stop_workflow ----------

  datatype StopError = WriteInProgress

  function FindStop(journal: seq<Event>, key: string, n: nat): (r: Option<nat>)
    requires n <= |journal|
    ensures r.Some? ==> r.value < n && journal[r.value].StopRequested? && journal[r.value].key == key
  {
    if n == 0 then None
    else if journal[n - 1].StopRequested? && journal[n - 1].key == key then Some(n - 1)
    else FindStop(journal, key, n - 1)
  }

  function ActiveJobs(s: State): set<nat> {
    set j | 0 <= j < |s.jobs| && !Terminal(s.jobs[j].state) :: j
  }

  predicate WriteActive(s: State) {
    exists j | 0 <= j < |s.jobs| :: !Terminal(s.jobs[j].state) && s.jobs[j].write
  }

  function Stop(s: State, key: string, now: int): Result<State, StopError> {
    if FindStop(s.journal, key, |s.journal|).Some? then Ok(s)
    else if WriteActive(s) then Err(WriteInProgress)
    else
      var stop := |s.journal|;
      var scoped := s.(journal := s.journal + [StopRequested(key, Some(ActiveJobs(s)), now, s.clock)]);
      Ok(CancelScope(scoped, stop, |s.jobs|))
  }

  // ---------- One tick, step by step ----------

  function TickAt(s: State, t: nat): Tick {
    if t in s.ticks then s.ticks[t] else Resting
  }

  function Moved(s: State, t: nat, tick: Tick): State {
    s.(ticks := s.ticks[t := tick])
  }

  predicate PlanAsked(journal: seq<Event>, change: nat) {
    exists k | 0 <= k < |journal| :: journal[k] == PlanRequested(change)
  }

  predicate Replans(t: Task) {
    t == PlanApproved || t == Executing || t == Reviewing || t == Ready
  }

  function Enqueued(s: State, write: bool, created: int): State {
    s.(jobs := s.jobs + [Job(write, created, s.clock, s.clock, Queued, false)])
  }

  // history, latest: the stop that stands.
  function ReadJournal(s: State, t: nat): State {
    match StandingStop(s.journal, |s.journal|)
    case Some(stop) => if TickAt(s, t) == Resting then Moved(s, t, Standing(stop, |s.journal|)) else s
    case None => s
  }

  // _jobs_for_stop: the rows, as they are now.
  function ReadJobs(s: State, t: nat): State {
    match TickAt(s, t)
    case Standing(stop, journalAt) =>
      Moved(s, t, Cancelling(stop, journalAt, s.clock, seq(|s.jobs|, j requires 0 <= j < |s.jobs| => s.jobs[j].state), 0))
    case _ => s
  }

  // The next row: cancelled and committed if it was read unfinished. After the last, the
  // check, which looks at the rows as this session has them.
  function CancelNext(s: State, t: nat): State {
    match TickAt(s, t)
    case Cancelling(stop, journalAt, jobsAt, view, at) =>
      if !IsStop(s.journal, stop) || |view| > |s.jobs| then s
      else if at < |view| then
        if InScope(s, stop, at) && !Terminal(view[at]) then
          var seen := if view[at] == Queued then Cancelled else view[at];
          Moved(s.(jobs := s.jobs[at := CancelSeen(s.jobs[at], view[at])], cancels := s.cancels + [(stop, at)]),
                t, Cancelling(stop, journalAt, jobsAt, view[at := seen], at + 1))
        else Moved(s, t, Cancelling(stop, journalAt, jobsAt, view, at + 1))
      else if forall j | 0 <= j < |view| && InScope(s, stop, j) :: Terminal(view[j])
      then Moved(s, t, Checked(stop, journalAt, jobsAt)) else Moved(s, t, Resting)
    case _ => s
  }

  // states.current
  function ReadTask(s: State, t: nat): State {
    match TickAt(s, t)
    case Checked(stop, journalAt, jobsAt) =>
      if Replans(s.task) then Moved(s, t, Replanning(stop, journalAt, jobsAt, s.version)) else Moved(s, t, Replanned(stop))
    case _ => s
  }

  // states.transition: refused if the task's own version has moved.
  function MoveToPlanning(s: State, t: nat): State {
    match TickAt(s, t)
    case Replanning(stop, _, _, seen) =>
      if s.version == seen then Moved(s.(task := Planning, version := s.version + 1), t, Replanned(stop)) else Moved(s, t, Resting)
    case _ => s
  }

  // The change that came with the stop is planned once.
  function RequestPlan(s: State, t: nat, now: int): State {
    match TickAt(s, t)
    case Replanned(stop) =>
      var change := LatestChange(s.journal, |s.journal|);
      if !IsStop(s.journal, stop) || change.None? || s.journal[change.value].stopKey != s.journal[stop].key || PlanAsked(s.journal, change.value)
      then Moved(s, t, Resting)
      else Moved(Enqueued(s.(journal := s.journal + [PlanRequested(change.value)]), false, now), t, Resting)
    case _ => s
  }

  // ---------- Steps ----------

  datatype Step =
    | StopStep(key: string, now: int)
    | OldStop(key: string, now: int)
    | TickJournal(tick: nat)
    | TickJobs(tick: nat)
    | TickCancel(tick: nat)
    | TickTask(tick: nat)
    | TickMove(tick: nat)
    | TickPlan(tick: nat, now: int)
    | TickFails(tick: nat)
    | EnqueueStep(write: bool, created: int)
    | Begin(job: nat)
    | Finish(job: nat, state: JobState)
    | ReadRow(session: nat, job: nat)
    | LoseLease(session: nat, spent: bool)   // recover_expired, with or without an attempt left
    | Requeue(session: nat)                  // retry
    | CancelStep(session: nat)               // request_cancel
    | Journal(event: Event)
    | MoveTask(task: Task)

  function WithJob(s: State, j: nat, job: Job): State
    requires j < |s.jobs|
  {
    s.(jobs := s.jobs[j := job])
  }

  // Queued from rest, or not.
  function Restated(job: Job, state: JobState, clock: nat): Job {
    job.(state := state, since := if Terminal(job.state) && !Terminal(state) then clock else job.since)
  }

  // What a session makes of a job whose row it has read, whatever the job has become.
  function Rewritten(job: Job, row: Job, step: Step, clock: nat): Job {
    match step
    case LoseLease(_, spent) =>
      if !UnderWay(row.state) then job
      else Restated(job, if row.cancelRequested then Cancelled else if spent then TimedOut else Queued, clock)
    case Requeue(_) =>
      if !Dead(row.state) then job
      else Restated(job, Queued, clock).(cancelRequested := job.cancelRequested && !row.cancelRequested)
    case CancelStep(_) => if UnderWay(row.state) && row.cancelRequested then job else CancelSeen(job, row.state)
    case _ => job
  }

  function WriteRow(s: State, n: nat, step: Step): State {
    if n !in s.held then s
    else
      var j := s.held[n].job;
      var done := s.(held := s.held - {n});
      if j >= |s.jobs| then done else WithJob(done, j, Rewritten(s.jobs[j], s.held[n].row, step, s.clock))
  }

  function Effect(s: State, step: Step): State {
    match step
    case StopStep(key, now) => (match Stop(s, key, now) case Ok(d) => d case Err(_) => s)
    case OldStop(key, now) => s.(journal := s.journal + [StopRequested(key, None, now, s.clock)])
    case TickJournal(t) => ReadJournal(s, t)
    case TickJobs(t) => ReadJobs(s, t)
    case TickCancel(t) => CancelNext(s, t)
    case TickTask(t) => ReadTask(s, t)
    case TickMove(t) => MoveToPlanning(s, t)
    case TickPlan(t, now) => RequestPlan(s, t, now)
    case TickFails(t) => Moved(s, t, Resting)
    case EnqueueStep(write, created) => Enqueued(s, write, created)
    case Begin(j) => if j < |s.jobs| && s.jobs[j].state == Queued then WithJob(s, j, s.jobs[j].(state := Running)) else s
    case Finish(j, state) => if j < |s.jobs| && s.jobs[j].state == Running && Terminal(state) then WithJob(s, j, s.jobs[j].(state := state)) else s
    case ReadRow(n, j) => if j < |s.jobs| then s.(held := s.held[n := Held(j, s.jobs[j])]) else s
    case LoseLease(n, _) => WriteRow(s, n, step)
    case Requeue(n) => WriteRow(s, n, step)
    case CancelStep(n) => WriteRow(s, n, step)
    case Journal(e) => if e.StopRequested? then s else s.(journal := s.journal + [e])
    case MoveTask(task) => s.(task := task, version := s.version + 1)
  }

  function Next(s: State, step: Step): State {
    Effect(s, step).(clock := s.clock + 1)
  }

  const EMPTY := State([], [], Planning, 0, [], map[], 0, map[])

  function Run(s: State, steps: seq<Step>): State
    decreases |steps|
  {
    if steps == [] then s else Run(Next(s, steps[0]), steps[1..])
  }

  // ---------- The stop, as it updates the tables ----------

  class Workflow {
    var s: State

    constructor ()
      ensures s == EMPTY
    {
      s := EMPTY;
    }

    method RequestCancels(stop: nat)
      requires IsStop(s.journal, stop)
      modifies this
      ensures s == CancelScope(old(s), stop, |old(s).jobs|)
    {
      ghost var given := s;
      for j := 0 to |s.jobs|
        invariant s == CancelScope(given, stop, j)
      {
        if InScope(s, stop, j) && !Terminal(s.jobs[j].state) {
          s := s.(jobs := s.jobs[j := CancelJob(s.jobs[j])], cancels := s.cancels + [(stop, j)]);
        }
      }
    }

    method StopWorkflow(key: string, now: int) returns (r: Result<(), StopError>)
      modifies this
      ensures match Stop(old(s), key, now)
        case Ok(next) => r == Ok(()) && s == next
        case Err(e) => r == Err(e) && s == old(s)
    {
      if FindStop(s.journal, key, |s.journal|).Some? {
        return Ok(());
      }
      var active: set<nat> := {};
      for j := 0 to |s.jobs|
        invariant active == set k | 0 <= k < j && !Terminal(s.jobs[k].state) :: k
        invariant forall k | 0 <= k < j && !Terminal(s.jobs[k].state) :: !s.jobs[k].write
        invariant s == old(s)
      {
        if !Terminal(s.jobs[j].state) {
          if s.jobs[j].write {
            return Err(WriteInProgress);
          }
          active := active + {j};
        }
      }
      assert active == ActiveJobs(s);
      s := s.(journal := s.journal + [StopRequested(key, Some(active), now, s.clock)]);
      RequestCancels(|s.journal| - 1);
      return Ok(());
    }
  }
}
