// app/conversation_reasoning.py and app/agent_runtime.py: the jobs that answer one
// message of a v4 conversation, their model calls, and the classification of the turn.
module TurnRuntime {
  import opened Prelude
  import opened Jobs
  import opened TurnProtocol

  const TURN_CALLS := 4
  const MAX_ATTEMPTS := 2

  datatype Event =
    | Classified(message: nat, purpose: Purpose)
    | ModelCall(job: nat, attempt: nat, input: string)
    | Rejected(job: nat, attempt: nat, output: string)
    | ReadDone(job: nat)
    | Decided(message: nat, job: nat, action: string)
    | Superseded(decision: nat, job: nat)
    | OtherEvent

  // consumed is the payload's consumed_calls; refreshed is the job whose decision was
  // superseded, for a job that refresh_decision enqueued.
  datatype Job = Job(message: nat, consumed: nat, refreshed: Option<nat>, state: JobState, owner: Option<nat>, attempts: nat)

  // What else decides about an answer: whether the task is still as it was observed,
  // whether a prepared deliverable asks for the action to be reconsidered, whether the
  // reads asked for are within their own budget, and whether the decision is the very one
  // that the job journaled before, if it did.
  datatype Facts = Facts(sameBasis: bool, reconsider: bool, withinReads: bool, repeated: bool)

  // A reply of the provider, as parse_step took it.
  datatype Reply = Accepted(decision: Decision) | Refused(output: string)

  // Where execute_reasoning stands: at the top of its loop, with its call counted but
  // not journaled, with the call made, with its reply read and the lease checked, or with
  // the turn classified.
  datatype Pc =
    | Idle
    | Looping(job: nat)
    | Counted(job: nat, attempt: nat)
    | Called(job: nat, attempt: nat)
    | Vetted(job: nat, attempt: nat, reply: Reply)
    | Judged(job: nat, attempt: nat, decision: Decision)

  // A request to the provider; again if the call was journaled already.
  datatype Invocation = Invocation(job: nat, attempt: nat, again: bool)

  // A row as a session has read it.
  datatype Held = Held(job: nat, row: Job)

  // held are the rows that sessions outside any transaction are about to write back.
  datatype State = State(
    journal: seq<Event>, jobs: seq<Job>, pcs: map<nat, Pc>, invoked: seq<Invocation>, held: map<nat, Held>)

  function At(s: State, w: nat): Pc {
    if w in s.pcs then s.pcs[w] else Idle
  }

  function Moved(s: State, w: nat, pc: Pc): State {
    s.(pcs := s.pcs[w := pc])
  }

  function WithJob(s: State, j: nat, job: Job): State
    requires j < |s.jobs|
  {
    s.(jobs := s.jobs[j := job])
  }

  predicate Live(s: State, j: nat, w: nat) {
    j < |s.jobs| && s.jobs[j].state == Running && s.jobs[j].owner == Some(w)
  }

  // ---------- Reading the journal ----------

  function Calls(journal: seq<Event>, j: nat, n: nat): (c: nat)
    requires n <= |journal|
    ensures c <= n
  {
    if n == 0 then 0 else Calls(journal, j, n - 1) + if journal[n - 1].ModelCall? && journal[n - 1].job == j then 1 else 0
  }

  function CallsOf(s: State, j: nat): nat {
    Calls(s.journal, j, |s.journal|)
  }

  function Rejections(journal: seq<Event>, j: nat): nat {
    if journal == [] then 0
    else
      var last := journal[|journal| - 1];
      Rejections(journal[..|journal| - 1], j) + if last.Rejected? && last.job == j then 1 else 0
  }

  // The rejection journaled under the key of this job and attempt.
  function RejectionAt(journal: seq<Event>, j: nat, attempt: nat, n: nat): (r: Option<nat>)
    requires n <= |journal|
    ensures r.Some? ==> r.value < n && journal[r.value].Rejected? && journal[r.value].job == j && journal[r.value].attempt == attempt
    ensures r.None? ==> forall k | 0 <= k < n && journal[k].Rejected? :: journal[k].job != j || journal[k].attempt != attempt
  {
    if n == 0 then None
    else if journal[n - 1].Rejected? && journal[n - 1].job == j && journal[n - 1].attempt == attempt then Some(n - 1)
    else RejectionAt(journal, j, attempt, n - 1)
  }

  // max_calls of a job.
  function MaxCalls(job: Job): nat {
    if job.consumed <= TURN_CALLS then TURN_CALLS - job.consumed else 0
  }

  // The call journaled under the key of this job and attempt.
  function CallAt(journal: seq<Event>, j: nat, attempt: nat, n: nat): (r: Option<nat>)
    requires n <= |journal|
    ensures r.Some? ==> r.value < n && journal[r.value].ModelCall? && journal[r.value].job == j && journal[r.value].attempt == attempt
    ensures r.None? ==> forall k | 0 <= k < n && journal[k].ModelCall? :: journal[k].job != j || journal[k].attempt != attempt
  {
    if n == 0 then None
    else if journal[n - 1].ModelCall? && journal[n - 1].job == j && journal[n - 1].attempt == attempt then Some(n - 1)
    else CallAt(journal, j, attempt, n - 1)
  }

  // turn_effect
  function PurposeOf(journal: seq<Event>, message: nat, n: nat): (r: Option<Purpose>)
    requires n <= |journal|
    ensures r.Some? <==> exists k | 0 <= k < n :: journal[k].Classified? && journal[k].message == message
    ensures r.Some? ==> exists k | 0 <= k < n :: journal[k] == Classified(message, r.value)
  {
    if n == 0 then None
    else
      var earlier := PurposeOf(journal, message, n - 1);
      if earlier.Some? then earlier
      else if journal[n - 1].Classified? && journal[n - 1].message == message then Some(journal[n - 1].purpose)
      else None
  }

  // ---------- classify_turn ----------

  // The journal after it; None when a read-only turn would become an action.
  function Classify(journal: seq<Event>, message: nat, purpose: Purpose): Option<seq<Event>> {
    match PurposeOf(journal, message, |journal|)
    case None => Some(journal + [Classified(message, purpose)])
    case Some(previous) =>
      if previous == Command && purpose == Observe then Some(journal)
      else if previous != purpose then None
      else Some(journal)
  }

  // What a decision says of its turn.
  function Effective(d: Decision): Option<Purpose> {
    if d.effect.Some? then d.effect
    else if d.action != "respond" then Some(Command)
    else if d.requests == [] then Some(Observe)
    else None
  }

  // ---------- One answer ----------

  function Failing(s: State, w: nat, j: nat): State {
    var ended := if Live(s, j, w) then WithJob(s, j, s.jobs[j].(state := Failed, owner := None)) else s;
    Moved(ended, w, Idle)
  }

  function ReadEvents(j: nat, n: nat): seq<Event> {
    seq(n, i => ReadDone(j))
  }

  // The first transaction for an answer that parse_step accepted: it classifies the turn,
  // and commits. The lease was checked before the lock was taken.
  function Judge(s: State, w: nat, j: nat, attempt: nat, d: Decision): State
    requires j < |s.jobs|
  {
    var purpose := Effective(d);
    match (if purpose.Some? then Classify(s.journal, s.jobs[j].message, purpose.value) else Some(s.journal))
    case None => Failing(s, w, j)
    case Some(journal) => Moved(s.(journal := journal), w, Judged(j, attempt, d))
  }

  predicate DecidedBy(journal: seq<Event>, j: nat) {
    exists k | 0 <= k < |journal| :: journal[k].Decided? && journal[k].job == j
  }

  // The second: go on, give up, or decide. Only deciding asks for the lease again. A
  // decision is journaled under the key of its job.
  function Settled(s: State, w: nat, j: nat, attempt: nat, d: Decision, facts: Facts): State
    requires j < |s.jobs|
  {
    var last := attempt + 1 >= MaxCalls(s.jobs[j]);
    if d.action != "respond" && !facts.sameBasis then
      if last then Failing(s, w, j) else Moved(s, w, Looping(j))
    else if attempt == 0 && facts.reconsider && d.action != "respond" then Moved(s, w, Looping(j))
    else if d.requests != [] then
      if last || !facts.withinReads then Failing(s, w, j) else Moved(s.(journal := s.journal + ReadEvents(j, |d.requests|)), w, Looping(j))
    else if !Live(s, j, w) || (DecidedBy(s.journal, j) && !facts.repeated) then Failing(s, w, j)
    else
      var journal := if DecidedBy(s.journal, j) then s.journal else s.journal + [Decided(s.jobs[j].message, j, d.action)];
      Moved(WithJob(s.(journal := journal), j, s.jobs[j].(state := Succeeded, owner := None)), w, Idle)
  }

  // An answer that parse_step refused: its rejection is journaled once for each attempt.
  function RejectedAs(s: State, w: nat, j: nat, attempt: nat, output: string): State
    requires j < |s.jobs|
  {
    var known := RejectionAt(s.journal, j, attempt, |s.journal|);
    if known.Some? && s.journal[known.value].output != output then Failing(s, w, j)
    else
      var t := if known.Some? then s else s.(journal := s.journal + [Rejected(j, attempt, output)]);
      if attempt + 1 < MaxCalls(s.jobs[j]) && Rejections(t.journal, j) <= 1 then Moved(t, w, Looping(j)) else Failing(t, w, j)
  }

  // ---------- Rows written back (app/jobs.py) ----------

  // recover_expired, retry and request_cancel lock nothing. Each reads a row, and later
  // writes by its id those columns that it changed, whatever the row has become.
  function WriteRecovered(s: State, j: nat, row: Job, cancelled: bool): State
    requires j < |s.jobs|
  {
    if !UnderWay(row.state) then s
    else WithJob(s, j, s.jobs[j].(state := Reaped(cancelled, row.attempts, MAX_ATTEMPTS), owner := None))
  }

  function WriteRetried(s: State, j: nat, row: Job): State
    requires j < |s.jobs|
  {
    if !Dead(row.state) || row.attempts >= MAX_ATTEMPTS then s
    else WithJob(s, j, s.jobs[j].(state := Queued, owner := if row.owner.Some? then None else s.jobs[j].owner))
  }

  // Of a job under way, only the request is written.
  function WriteCancelled(s: State, j: nat, row: Job): State
    requires j < |s.jobs|
  {
    if row.state != Queued then s else WithJob(s, j, s.jobs[j].(state := Cancelled))
  }

  // ---------- refresh_decision ----------

  predicate Refreshed(jobs: seq<Job>, j: nat) {
    exists k | 0 <= k < |jobs| :: jobs[k].refreshed == Some(j)
  }

  function Refresh(s: State, decision: nat): State {
    if decision >= |s.journal| || !s.journal[decision].Decided? || s.journal[decision].job >= |s.jobs| then s
    else
      var past := s.journal[decision].job;
      var consumed := s.jobs[past].consumed + CallsOf(s, past);
      if consumed >= TURN_CALLS || Refreshed(s.jobs, past) then s
      else
        s.(jobs := s.jobs + [Job(s.jobs[past].message, consumed, Some(past), Queued, None, 0)],
           journal := s.journal + [Superseded(decision, |s.jobs|)])
  }

  // The two services of app/agent_runtime.py that append for a turn.
  class AgentRuntime {
    var s: State

    constructor (s: State)
      ensures this.s == s
    {
      this.s := s;
    }

    // False when a read-only turn would become an action.
    method ClassifyTurn(message: nat, purpose: Purpose) returns (ok: bool)
      modifies this
      ensures match Classify(old(s).journal, message, purpose)
        case Some(journal) => ok && s == old(s).(journal := journal)
        case None => !ok && s == old(s)
    {
      var previous := PurposeOf(s.journal, message, |s.journal|);
      if previous.Some? {
        if previous.value == Command && purpose == Observe {
          return true;
        }
        return previous.value == purpose;
      }
      s := s.(journal := s.journal + [Classified(message, purpose)]);
      return true;
    }

    method RefreshDecision(decision: nat) returns (refreshed: bool)
      modifies this
      ensures s == Refresh(old(s), decision)
      ensures refreshed ==> |s.jobs| == |old(s).jobs| + 1
      ensures !refreshed ==> s == old(s)
    {
      if decision >= |s.journal| || !s.journal[decision].Decided? || s.journal[decision].job >= |s.jobs| {
        return false;
      }
      var past := s.journal[decision].job;
      var consumed := s.jobs[past].consumed + CallsOf(s, past);
      if consumed >= TURN_CALLS || Refreshed(s.jobs, past) {
        return false;
      }
      var id := |s.jobs|;
      s := s.(jobs := s.jobs + [Job(s.jobs[past].message, consumed, Some(past), Queued, None, 0)]);
      s := s.(journal := s.journal + [Superseded(decision, id)]);
      return true;
    }
  }

  // ---------- Steps ----------

  datatype Step =
    | NewTurn(message: nat)
    | ResumeTurn(message: nat, source: nat)
    | Lease(worker: nat, job: nat)
    | CountCalls(worker: nat)
    | MakeCall(worker: nat, input: string)
    | CheckReply(worker: nat, reply: Reply)
    | TakeReply(worker: nat)
    | Settle(worker: nat, facts: Facts)
    | Fail(worker: nat)
    | Crash(worker: nat)
    | ReadRow(session: nat, job: nat)
    | Expire(session: nat, cancelled: bool)
    | Retry(session: nat)
    | Cancel(session: nat)
    | RefreshDecision(refused: nat)
    | Unrelated

  function NewJob(message: nat): Job {
    Job(message, 0, None, Queued, None, 0)
  }

  predicate Holds(s: State, session: nat) {
    session in s.held && s.held[session].job < |s.jobs|
  }

  // A session that has written its row back is done.
  function Written(s: State, session: nat, t: State): State {
    t.(held := s.held - {session})
  }

  function Next(s: State, step: Step): State {
    match step
    case NewTurn(message) => s.(jobs := s.jobs + [NewJob(message)])
    case ResumeTurn(message, source) =>
      var t := s.(jobs := s.jobs + [NewJob(message)]);
      if PurposeOf(s.journal, source, |s.journal|) == Some(Observe)
      then (match Classify(s.journal, message, Observe) case Some(journal) => t.(journal := journal) case None => s) else t
    case Lease(w, j) =>
      if !At(s, w).Idle? || j >= |s.jobs| || s.jobs[j].state != Queued then s
      else Moved(WithJob(s, j, s.jobs[j].(state := Running, owner := Some(w), attempts := s.jobs[j].attempts + 1)), w, Looping(j))
    case CountCalls(w) =>
      (match At(s, w)
       case Looping(j) =>
         if !Live(s, j, w) || CallsOf(s, j) >= MaxCalls(s.jobs[j]) then Failing(s, w, j)
         else Moved(s, w, Counted(j, CallsOf(s, j)))
       case _ => s)
    case MakeCall(w, input) =>
      (match At(s, w)
       case Counted(j, attempt) =>
         var known := CallAt(s.journal, j, attempt, |s.journal|);
         if known.Some? && s.journal[known.value].input != input then Failing(s, w, j)
         else
           var t := Moved(s.(invoked := s.invoked + [Invocation(j, attempt, known.Some?)]), w, Called(j, attempt));
           if known.Some? then t else t.(journal := s.journal + [ModelCall(j, attempt, input)])
       case _ => s)
    case CheckReply(w, reply) =>
      (match At(s, w)
       case Called(j, attempt) =>
         if reply.Accepted? && !Consistent(reply.decision, V4) then s
         else if !Live(s, j, w) then Failing(s, w, j)
         else Moved(s, w, Vetted(j, attempt, reply))
       case _ => s)
    case TakeReply(w) =>
      (match At(s, w)
       case Vetted(j, attempt, reply) =>
         if j >= |s.jobs| then s
         else (match reply
               case Accepted(d) => Judge(s, w, j, attempt, d)
               case Refused(output) => RejectedAs(s, w, j, attempt, output))
       case _ => s)
    case Settle(w, facts) =>
      (match At(s, w)
       case Judged(j, attempt, d) => if j < |s.jobs| then Settled(s, w, j, attempt, d, facts) else s
       case _ => s)
    case Fail(w) => if At(s, w).Idle? then s else Failing(s, w, At(s, w).job)
    case Crash(w) => Moved(s, w, Idle)
    case ReadRow(n, j) => if j < |s.jobs| then s.(held := s.held[n := Held(j, s.jobs[j])]) else s
    case Expire(n, cancelled) => if Holds(s, n) then Written(s, n, WriteRecovered(s, s.held[n].job, s.held[n].row, cancelled)) else s
    case Retry(n) => if Holds(s, n) then Written(s, n, WriteRetried(s, s.held[n].job, s.held[n].row)) else s
    case Cancel(n) => if Holds(s, n) then Written(s, n, WriteCancelled(s, s.held[n].job, s.held[n].row)) else s
    case RefreshDecision(d) => Refresh(s, d)
    case Unrelated => s.(journal := s.journal + [OtherEvent])
  }

  const EMPTY := State([], [], map[], [], map[])

  function After(s: State, steps: seq<Step>): State
    decreases |steps|
  {
    if steps == [] then s else After(Next(s, steps[0]), steps[1..])
  }
}
