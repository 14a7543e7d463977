// app/cla.py: the transactions of the CLA signature outbox. Each function below is
// what one locked transaction reads, refuses and commits, for one task. The record
// hash of a journal event is its position: hashes of the chain identify events.
module ClaOutbox {
  import opened Prelude
  import opened Jobs

  // A published Draft PR as published_target() describes it: the PR itself, and the
  // commit, diff and review fields that move when it is published again.
  datatype Target = Target(pr: string, revision: string)

  // A connected publisher account: the record it is bound by, and its GitHub login.
  datatype Account = Account(record: string, login: string)

  // A signature comment: on which PR, by which GitHub login.
  type Key = (string, string)

  datatype Event =
    | Prepared(target: Target, account: Account, existing: bool, passed: bool)
    | Confirmed(preview: nat, job: nat)
    | WriteStarted(authorization: nat, job: nat)
    | Submitted(authorization: nat, job: nat)
    | StatusObserved(job: nat)
    | OtherEvent

  // QuestionKind stands for the two kinds that never make a task busy.
  datatype Kind = PrepareKind | CheckKind | WriteKind | QuestionKind | OtherKind

  // key is the idempotency key of the request; preview and target are the payload of a
  // write and of the two reading kinds.
  datatype Job = Job(
    kind: Kind, key: string, account: Account, target: Target, preview: nat,
    state: JobState, owner: Option<nat>, cancelRequested: bool, attempts: nat, maxAttempts: nat)

  // The task's journal and jobs, and what the publication and account tables hold now.
  datatype Db = Db(journal: seq<Event>, jobs: seq<Job>, published: Option<Target>, account: Option<Account>)

  datatype ClaError =
    | RepeatDiffers | NoAccount | Busy | NoPublishedPr | OutcomeUnknown | Budget
    | Unsettled | PreviewStale | ConsentRequired | PreviewExpired | ConsentConsumed
    | AlreadySubmitted | AgreementInvalid | Stopped | Unauthorized | TargetStale | NoSuchJob | JobRefused

  // ---------- Reading the journal ----------

  // wb.latest(task, "cla_prepared"), over the first n events.
  function LatestPrepared(journal: seq<Event>, n: nat): (r: Option<nat>)
    requires n <= |journal|
    ensures r.Some? ==> r.value < n && journal[r.value].Prepared? && forall k | r.value < k < n :: !journal[k].Prepared?
    ensures r.None? ==> forall k | 0 <= k < n :: !journal[k].Prepared?
  {
    if n == 0 then None else if journal[n - 1].Prepared? then Some(n - 1) else LatestPrepared(journal, n - 1)
  }

  function LatestConfirmed(journal: seq<Event>, n: nat): (r: Option<nat>)
    requires n <= |journal|
    ensures r.Some? ==> r.value < n && journal[r.value].Confirmed?
  {
    if n == 0 then None else if journal[n - 1].Confirmed? then Some(n - 1) else LatestConfirmed(journal, n - 1)
  }

  predicate SubmittedBefore(journal: seq<Event>, a: nat, n: nat)
    requires n <= |journal|
  {
    exists k | 0 <= k < n :: journal[k].Submitted? && journal[k].authorization == a
  }

  predicate StartedIn(journal: seq<Event>, a: nat) {
    exists k | 0 <= k < |journal| :: journal[k].WriteStarted? && journal[k].authorization == a
  }

  // unresolved_signature
  predicate Unresolved(journal: seq<Event>) {
    exists k | 0 <= k < |journal| ::
      journal[k].WriteStarted? && !SubmittedBefore(journal, journal[k].authorization, |journal|)
  }

  predicate ConsentUsed(journal: seq<Event>, preview: nat) {
    exists k | 0 <= k < |journal| :: journal[k].Confirmed? && journal[k].preview == preview
  }

  // The authorization of a write job: the first consent recorded with it.
  function AuthorizationOf(journal: seq<Event>, job: nat, from: nat): (r: Option<nat>)
    requires from <= |journal|
    ensures r.Some? ==> r.value < |journal| && journal[r.value].Confirmed? && journal[r.value].job == job
    decreases |journal| - from
  {
    if from == |journal| then None
    else if journal[from].Confirmed? && journal[from].job == job then Some(from)
    else AuthorizationOf(journal, job, from + 1)
  }

  // ---------- Jobs (app/jobs.py) ----------

  // assert_idle
  predicate IsBusy(jobs: seq<Job>) {
    exists j | 0 <= j < |jobs| :: !Terminal(jobs[j].state) && jobs[j].kind != QuestionKind
  }

  function FindJob(jobs: seq<Job>, kind: Kind, key: string, from: nat): (r: Option<nat>)
    requires from <= |jobs|
    ensures r.Some? ==> r.value < |jobs| && jobs[r.value].kind == kind && jobs[r.value].key == key
    decreases |jobs| - from
  {
    if from == |jobs| then None
    else if jobs[from].kind == kind && jobs[from].key == key then Some(from)
    else FindJob(jobs, kind, key, from + 1)
  }

  function ReadCount(jobs: seq<Job>): nat {
    if jobs == [] then 0
    else ReadCount(jobs[1..]) + if jobs[0].kind == PrepareKind || jobs[0].kind == CheckKind then 1 else 0
  }

  function NewJob(kind: Kind, key: string, account: Account, target: Target, preview: nat, maxAttempts: nat): Job {
    Job(kind, key, account, target, preview, Queued, None, false, 0, maxAttempts)
  }

  // The fence: self.check(session, job) in the same transaction.
  predicate Live(db: Db, j: nat, w: nat) {
    j < |db.jobs| && db.jobs[j].state == Running && db.jobs[j].owner == Some(w) && !db.jobs[j].cancelRequested
  }

  function WithJob(db: Db, j: nat, job: Job): Db
    requires j < |db.jobs|
  {
    db.(jobs := db.jobs[j := job])
  }

  function Appended(db: Db, e: Event): Db {
    db.(journal := db.journal + [e])
  }

  // JobService.succeed under the fence.
  function Finished(db: Db, j: nat): Db
    requires j < |db.jobs|
  {
    WithJob(db, j, db.jobs[j].(state := Succeeded, owner := None))
  }

  // lease_next: a queued job goes to an idle worker.
  function LeaseJob(db: Db, j: nat, w: nat): Result<Db, ClaError> {
    if j >= |db.jobs| || db.jobs[j].state != Queued || db.jobs[j].cancelRequested then Err(JobRefused)
    else Ok(WithJob(db, j, db.jobs[j].(state := Leased, owner := Some(w), attempts := db.jobs[j].attempts + 1)))
  }

  function StartJob(db: Db, j: nat, w: nat): Result<Db, ClaError> {
    if j >= |db.jobs| || db.jobs[j].state != Leased || db.jobs[j].owner != Some(w) then Err(JobRefused)
    else Ok(WithJob(db, j, db.jobs[j].(state := Running)))
  }

  // The exception path of the worker: cancel, time_out or fail, by the owner only.
  function FailJob(db: Db, j: nat, w: nat, timedOut: bool): Db {
    if j >= |db.jobs| || (db.jobs[j].state != Leased && db.jobs[j].state != Running) || db.jobs[j].owner != Some(w) then db
    else
      var job := db.jobs[j];
      WithJob(db, j, job.(state := if job.cancelRequested then Cancelled else if timedOut then TimedOut else Failed, owner := None))
  }

  // recover_expired, request_cancel and retry lock nothing. Each reads a row, and later
  // writes by its id those columns that it changed, whatever the row has become.
  function WriteRecovered(db: Db, j: nat, row: Job): Db
    requires j < |db.jobs|
  {
    if !UnderWay(row.state) then db
    else WithJob(db, j, db.jobs[j].(state := Reaped(row.cancelRequested, row.attempts, row.maxAttempts), owner := None))
  }

  function WriteCancelled(db: Db, j: nat, row: Job): Db
    requires j < |db.jobs|
  {
    if Terminal(row.state) || (row.state != Queued && row.cancelRequested) then db
    else if row.state == Queued then WithJob(db, j, db.jobs[j].(state := Cancelled, cancelRequested := true))
    else WithJob(db, j, db.jobs[j].(cancelRequested := true))
  }

  // Any caller of the jobs API may retry at any time.
  function WriteRetried(db: Db, j: nat, row: Job): Db
    requires j < |db.jobs|
  {
    if !Dead(row.state) || row.attempts >= row.maxAttempts then db
    else
      var owner := if row.owner.Some? then None else db.jobs[j].owner;
      var cancelRequested := if row.cancelRequested then false else db.jobs[j].cancelRequested;
      WithJob(db, j, db.jobs[j].(state := Queued, owner := owner, cancelRequested := cancelRequested))
  }

  // ---------- request_cla ----------

  function RequestCla(db: Db, account: Account, key: string, check: bool): Result<(Db, nat), ClaError> {
    var kind := if check then CheckKind else PrepareKind;
    var earlier := FindJob(db.jobs, kind, key, 0);
    if earlier.Some? then
      if db.jobs[earlier.value].account != account then Err(RepeatDiffers) else Ok((db, earlier.value))
    else if db.account != Some(account) then Err(NoAccount)
    else if IsBusy(db.jobs) then Err(Busy)
    else if db.published.None? then Err(NoPublishedPr)
    else if !check && Unresolved(db.journal) then Err(OutcomeUnknown)
    else if ReadCount(db.jobs) >= 64 then Err(Budget)
    else
      var job := NewJob(kind, key, account, db.published.value, 0, 1);
      Ok((db.(jobs := db.jobs + [job], journal := db.journal + [OtherEvent]), |db.jobs|))
  }

  // ---------- confirm_cla ----------

  // What the user's submission and the clock say: messages settled, the exact consent
  // statement with the agreement hash and nonce, the preview still in time, and the
  // stored agreement still hashing to the agreed value.
  datatype Consent = Consent(settled: bool, exact: bool, inTime: bool, agreementIntact: bool)

  function ConfirmCla(db: Db, preview: nat, c: Consent): Result<(Db, nat), ClaError> {
    var latest := LatestPrepared(db.journal, |db.journal|);
    if !c.settled then Err(Unsettled)
    else if IsBusy(db.jobs) then Err(Busy)
    else if latest != Some(preview) then Err(PreviewStale)
    else
      var p := db.journal[preview];
      if !c.exact then Err(ConsentRequired)
      else if !c.inTime then Err(PreviewExpired)
      else if ConsentUsed(db.journal, preview) then Err(ConsentConsumed)
      else if p.passed || p.existing then Err(AlreadySubmitted)
      else if db.account != Some(p.account) then Err(NoAccount)
      else if db.published != Some(p.target) || Unresolved(db.journal) then Err(PreviewStale)
      else if !c.agreementIntact then Err(AgreementInvalid)
      else
        var job := NewJob(WriteKind, "", p.account, p.target, preview, 3);
        Ok((db.(jobs := db.jobs + [job], journal := db.journal + [Confirmed(preview, |db.jobs|)]), |db.jobs|))
  }

  // ---------- CLAWorker.sign ----------

  datatype Opening = AlreadyRecorded | Proceed(authorization: nat)

  // The first transaction of sign(): the consent of this very job, or the receipt that
  // an earlier attempt left.
  function SignOpening(db: Db, j: nat, w: nat, contentOk: bool): Result<Opening, ClaError> {
    if !Live(db, j, w) then Err(Stopped)
    else
      var job := db.jobs[j];
      var a := AuthorizationOf(db.journal, j, 0);
      if job.preview >= |db.journal| || !db.journal[job.preview].Prepared? || a.None?
         || db.journal[a.value].preview != job.preview then Err(Unauthorized)
      else if !contentOk then Err(AgreementInvalid)
      else if db.journal[job.preview].account != job.account then Err(Unauthorized)
      else if SubmittedBefore(db.journal, a.value, |db.journal|) then Ok(AlreadyRecorded)
      else Ok(Proceed(a.value))
  }

  // target(): the published PR and the account, as of now. remoteOk is what GitHub says
  // about the PR and the identity of the token.
  function CurrentTarget(db: Db, j: nat, w: nat, remoteOk: bool): Result<Target, ClaError> {
    if !Live(db, j, w) then Err(Stopped)
    else if db.published.None? then Err(NoPublishedPr)
    else if db.account != Some(db.jobs[j].account) then Err(NoAccount)
    else if !remoteOk then Err(TargetStale)
    else Ok(db.published.value)
  }

  // The transaction before the POST. Appending a second time under the same key finds
  // the first row and returns it: the append by itself does not stop a second POST.
  function StartWrite(db: Db, j: nat, w: nat, a: nat): Result<Db, ClaError> {
    if !Live(db, j, w) then Err(Stopped)
    else if a >= |db.journal| || !db.journal[a].Confirmed? || db.journal[a].preview >= |db.journal|
         || !db.journal[db.journal[a].preview].Prepared? then Err(Unauthorized)
    else if db.account != Some(db.journal[db.journal[a].preview].account) then Err(NoAccount)
    else if LatestPrepared(db.journal, |db.journal|) != Some(db.journal[a].preview) then Err(PreviewStale)
    else if StartedIn(db.journal, a) then Ok(db)
    else Ok(Appended(db, WriteStarted(a, j)))
  }

  // receipt(): one submission event per authorization, whoever observes it.
  function RecordReceipt(db: Db, j: nat, a: nat): Result<Db, ClaError> {
    if SubmittedBefore(db.journal, a, |db.journal|) then
      if exists k | 0 <= k < |db.journal| :: db.journal[k] == Submitted(a, j) then Ok(db) else Err(RepeatDiffers)
    else Ok(Appended(db, Submitted(a, j)))
  }

  // The closing transaction of sign().
  function SignClosing(db: Db, j: nat, w: nat, a: nat): Result<Db, ClaError> {
    if !Live(db, j, w) then Err(Stopped)
    else
      var recorded :- RecordReceipt(db, j, a);
      Ok(Finished(recorded, j))
  }

  // ---------- CLAWorker.execute for the two reading kinds ----------

  // The consent whose comment a reading job has found on its PR, if it is still open.
  function OpenAuthorization(journal: seq<Event>, target: Target, account: Account): (r: Option<nat>)
    ensures r.Some? ==> r.value < |journal| && journal[r.value].Confirmed?
    ensures r.Some? ==> journal[r.value].preview < |journal| && journal[journal[r.value].preview].Prepared?
    ensures r.Some? ==> journal[journal[r.value].preview].target == target && journal[journal[r.value].preview].account == account
    ensures r.Some? ==> !SubmittedBefore(journal, r.value, |journal|)
  {
    var a := LatestConfirmed(journal, |journal|);
    if a.None? then None
    else
      var p := journal[a.value].preview;
      if p < |journal| && journal[p].Prepared? && journal[p].target == target && journal[p].account == account
         && !SubmittedBefore(journal, a.value, |journal|)
      then a else None
  }

  predicate HasStatus(journal: seq<Event>, j: nat) {
    exists k | 0 <= k < |journal| :: journal[k] == StatusObserved(j)
  }

  // The closing transaction: the preview (for a prepare job), the receipt of a comment
  // that was found, the observed status, and the job's end. A job that has closed before
  // finds its own keys: a preview never repeats, and a status may (repeated).
  function ObserveClosing(db: Db, j: nat, w: nat, target: Target, account: Account, existing: bool, passed: bool, repeated: bool): Result<Db, ClaError> {
    if !Live(db, j, w) then Err(Stopped)
    else if db.account != Some(account) then Err(NoAccount)
    else if db.published != Some(target) then Err(TargetStale)
    else if HasStatus(db.journal, j) then
      if db.jobs[j].kind == PrepareKind || !repeated then Err(RepeatDiffers)
      else
        var a := OpenAuthorization(db.journal, target, account);
        Ok(Finished(if existing && a.Some? then Appended(db, Submitted(a.value, j)) else db, j))
    else
      var previewed := if db.jobs[j].kind == PrepareKind then Appended(db, Prepared(target, account, existing, passed)) else db;
      var a := OpenAuthorization(previewed.journal, target, account);
      var receipted := if existing && a.Some? then Appended(previewed, Submitted(a.value, j)) else previewed;
      Ok(Finished(Appended(receipted, StatusObserved(j)), j))
  }

  // ---------- The service and worker, as they update the database ----------

  class Service {
    var db: Db

    constructor (db: Db)
      ensures this.db == db
    {
      this.db := db;
    }

    method Request(account: Account, key: string, check: bool) returns (r: Result<nat, ClaError>)
      modifies this
      ensures match RequestCla(old(db), account, key, check)
        case Ok(result) => r == Ok(result.1) && db == result.0
        case Err(e) => r == Err(e) && db == old(db)
    {
      var kind := if check then CheckKind else PrepareKind;
      var existing := FindJob(db.jobs, kind, key, 0);
      if existing.Some? {
        if db.jobs[existing.value].account != account {
          return Err(RepeatDiffers);
        }
        return Ok(existing.value);
      }
      if db.account != Some(account) {
        return Err(NoAccount);
      }
      if IsBusy(db.jobs) {
        return Err(Busy);
      }
      if db.published.None? {
        return Err(NoPublishedPr);
      }
      if !check && Unresolved(db.journal) {
        return Err(OutcomeUnknown);
      }
      if ReadCount(db.jobs) >= 64 {
        return Err(Budget);
      }
      var id := |db.jobs|;
      db := db.(jobs := db.jobs + [NewJob(kind, key, account, db.published.value, 0, 1)],
                journal := db.journal + [OtherEvent]);
      return Ok(id);
    }

    method Confirm(preview: nat, c: Consent) returns (r: Result<nat, ClaError>)
      modifies this
      ensures match ConfirmCla(old(db), preview, c)
        case Ok(result) => r == Ok(result.1) && db == result.0
        case Err(e) => r == Err(e) && db == old(db)
    {
      if !c.settled {
        return Err(Unsettled);
      }
      if IsBusy(db.jobs) {
        return Err(Busy);
      }
      var latest := LatestPrepared(db.journal, |db.journal|);
      if latest != Some(preview) {
        return Err(PreviewStale);
      }
      var p := db.journal[preview];
      if !c.exact {
        return Err(ConsentRequired);
      }
      if !c.inTime {
        return Err(PreviewExpired);
      }
      if ConsentUsed(db.journal, preview) {
        return Err(ConsentConsumed);
      }
      if p.passed || p.existing {
        return Err(AlreadySubmitted);
      }
      if db.account != Some(p.account) {
        return Err(NoAccount);
      }
      if db.published != Some(p.target) || Unresolved(db.journal) {
        return Err(PreviewStale);
      }
      if !c.agreementIntact {
        return Err(AgreementInvalid);
      }
      var id := |db.jobs|;
      db := db.(jobs := db.jobs + [NewJob(WriteKind, "", p.account, p.target, preview, 3)],
                journal := db.journal + [Confirmed(preview, id)]);
      return Ok(id);
    }

    method BeginWrite(j: nat, w: nat, a: nat) returns (r: Result<(), ClaError>)
      modifies this
      ensures match StartWrite(old(db), j, w, a)
        case Ok(next) => r == Ok(()) && db == next
        case Err(e) => r == Err(e) && db == old(db)
    {
      if !Live(db, j, w) {
        return Err(Stopped);
      }
      if a >= |db.journal| || !db.journal[a].Confirmed? || db.journal[a].preview >= |db.journal|
         || !db.journal[db.journal[a].preview].Prepared? {
        return Err(Unauthorized);
      }
      if db.account != Some(db.journal[db.journal[a].preview].account) {
        return Err(NoAccount);
      }
      if LatestPrepared(db.journal, |db.journal|) != Some(db.journal[a].preview) {
        return Err(PreviewStale);
      }
      if !StartedIn(db.journal, a) {
        db := Appended(db, WriteStarted(a, j));
      }
      return Ok(());
    }

    // The closing transaction of a reading job.
    method CloseObserve(j: nat, w: nat, target: Target, account: Account, existing: bool, passed: bool, repeated: bool) returns (r: Result<(), ClaError>)
      modifies this
      ensures match ObserveClosing(old(db), j, w, target, account, existing, passed, repeated)
        case Ok(next) => r == Ok(()) && db == next
        case Err(e) => r == Err(e) && db == old(db)
    {
      if !Live(db, j, w) {
        return Err(Stopped);
      }
      if db.account != Some(account) {
        return Err(NoAccount);
      }
      if db.published != Some(target) {
        return Err(TargetStale);
      }
      var known := HasStatus(db.journal, j);
      if known && (db.jobs[j].kind == PrepareKind || !repeated) {
        return Err(RepeatDiffers);
      }
      if db.jobs[j].kind == PrepareKind {
        db := Appended(db, Prepared(target, account, existing, passed));
      }
      if existing {
        var a := OpenAuthorization(db.journal, target, account);
        if a.Some? {
          db := Appended(db, Submitted(a.value, j));
        }
      }
      if !known {
        db := Appended(db, StatusObserved(j));
      }
      db := Finished(db, j);
      return Ok(());
    }

    method CloseSign(j: nat, w: nat, a: nat) returns (r: Result<(), ClaError>)
      modifies this
      ensures match SignClosing(old(db), j, w, a)
        case Ok(next) => r == Ok(()) && db == next
        case Err(e) => r == Err(e) && db == old(db)
    {
      if !Live(db, j, w) {
        return Err(Stopped);
      }
      var recorded := RecordReceipt(db, j, a);
      if recorded.Err? {
        return Err(recorded.error);
      }
      db := Finished(recorded.value, j);
      return Ok(());
    }
  }

  // ---------- existing_signature ----------

  // One comment of the PR's list: its author, and whether it is the signature text.
  datatype Comment = Comment(author: string, signature: bool, wellFormed: bool)

  const PAGE := 100
  const PAGES := 10

  // The page of a list as it stands when it is read.
  function PageOf(comments: seq<Comment>, page: nat): (r: seq<Comment>)
    ensures |r| <= PAGE
  {
    var lo := if page * PAGE <= |comments| then page * PAGE else |comments|;
    var hi := if page * PAGE + PAGE <= |comments| then page * PAGE + PAGE else |comments|;
    comments[lo..hi]
  }

  predicate Signs(c: Comment, login: string) {
    c.signature && c.author == login
  }

  datatype Search = Found | NotFound | Malformed | OverBudget

  // The scan reads up to ten pages, one request after another, while the list may grow
  // behind it: lists[i] is the list when page i is read. It may only say "no signature"
  // when there was none in the list it started from.
  method ExistingSignature(lists: seq<seq<Comment>>, login: string) returns (r: Search)
    requires |lists| == PAGES
    requires forall i | 0 < i < PAGES :: lists[i - 1] <= lists[i]
    ensures r == NotFound ==> forall c | c in lists[0] :: !Signs(c, login)
    ensures r == Found ==> exists c | c in lists[PAGES - 1] :: Signs(c, login)
    ensures r == OverBudget ==> |lists[PAGES - 1]| >= PAGE * PAGES
  {
    for page := 0 to PAGES
      invariant forall k | 0 <= k < page * PAGE && k < |lists[0]| :: !Signs(lists[0][k], login)
      invariant page > 0 ==> |lists[page - 1]| >= page * PAGE
    {
      Growing(lists, 0, page);
      Growing(lists, page, PAGES - 1);
      var values := PageOf(lists[page], page);
      for i := 0 to |values|
        invariant forall k | 0 <= k < i :: !Signs(values[k], login)
      {
        if values[i].signature && values[i].author == login {
          OnPage(lists[page], lists[PAGES - 1], page, i);
          assert Signs(lists[PAGES - 1][page * PAGE + i], login);
          return if values[i].wellFormed then Found else Malformed;
        }
      }
      forall k | page * PAGE <= k < page * PAGE + PAGE && k < |lists[0]| ensures !Signs(lists[0][k], login) {
        OnPage(lists[page], lists[page], page, k - page * PAGE);
      }
      if |values| < PAGE {
        return NotFound;
      }
    }
    return OverBudget;
  }

  lemma OnPage(list: seq<Comment>, later: seq<Comment>, page: nat, i: nat)
    requires list <= later && i < PAGE && page * PAGE + i < |list|
    ensures i < |PageOf(list, page)| && PageOf(list, page)[i] == list[page * PAGE + i] == later[page * PAGE + i]
  {
  }

  lemma {:induction false} Growing(lists: seq<seq<Comment>>, i: nat, k: nat)
    requires i <= k < |lists|
    requires forall i | 0 < i < |lists| :: lists[i - 1] <= lists[i]
    ensures lists[i] <= lists[k]
    decreases k - i
  {
    if i < k {
      Growing(lists, i + 1, k);
      assert lists[(i + 1) - 1] <= lists[i + 1];
    }
  }
}
