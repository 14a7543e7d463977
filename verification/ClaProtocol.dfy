// app/cla.py as a protocol: any number of workers run CLAWorker over the transactions of
// ClaOutbox, and anything may happen between two of a worker's requests: other workers,
// crashes, lease expiry, retries, cancellation, new previews and consents, and comments
// that appear on the remote.
module ClaProtocol {
  import opened Prelude
  import opened Jobs
  import opened ClaOutbox

  // Where sign() stands, between two of its transactions or requests.
  datatype Phase =
    | Authorized                // consent read
    | Targeted                  // target() answered with the preview's target
    | Scanning(seen: bool)      // existing_signature under way; seen: a signature was there when it began
    | Unsigned                  // it answered None
    | Unsent                    // no write_started for this consent
    | Reread                    // the agreement is unchanged and the consent in time
    | Ready                     // target() once more
    | Sending                   // write_started committed, the POST not yet made
    | Posted                    // the POST made, no reply yet
    | Signed                    // a signature comment in hand

  datatype Look = LookTargeted | LookScanning(seen: bool) | Looked(found: bool)

  datatype Pc =
    | Idle
    | Leasing(job: nat)
    | Started(job: nat)
    | Signing(job: nat, authorization: nat, phase: Phase)
    | Recorded(job: nat)
    | Observing(job: nat, target: Target, account: Account, look: Look)

  // A row as a session has read it.
  datatype Held = Held(job: nat, row: Job)

  // issued lists the consents POSTs were made for, in order; network holds the POSTs not
  // yet arrived; comments is what the remote holds. It never loses a comment. held are the
  // rows that sessions outside any transaction are about to write back.
  datatype State = State(
    db: Db, pcs: map<nat, Pc>, issued: seq<nat>, network: set<Key>, comments: set<Key>, held: map<nat, Held>)

  function At(s: State, w: nat): Pc {
    if w in s.pcs then s.pcs[w] else Idle
  }

  function Moved(s: State, w: nat, pc: Pc): State {
    s.(pcs := s.pcs[w := pc])
  }

  function KeyOf(journal: seq<Event>, a: nat): Key {
    if a < |journal| && journal[a].Confirmed? && journal[a].preview < |journal| && journal[journal[a].preview].Prepared?
    then (journal[journal[a].preview].target.pr, journal[journal[a].preview].account.login)
    else ("", "")
  }

  predicate Initial(s: State) {
    s.db.journal == [] && s.db.jobs == [] && s.pcs == map[] && s.issued == [] && s.network == {} && s.comments == {} && s.held == map[]
  }

  // ---------- The worker's steps ----------

  // One transaction or request of a worker: the reply of the remote, and the clock, are
  // the arguments.
  datatype Move =
    | Lease(leased: nat)
    | Start
    | Open(contentOk: bool)
    | ReadTarget(remoteOk: bool)
    | BeginScan
    | EndScan(found: bool)
    | CheckUnsent
    | ReadAgreement(current: bool)
    | ReadTargetAgain(stillOk: bool)
    | Write
    | Post
    | Reply
    | Close(passed: bool, repeated: bool)
    | Fail(timedOut: bool)
    | Crash

  function Failed(s: State, w: nat, j: nat, timedOut: bool): State {
    Moved(s.(db := FailJob(s.db, j, w, timedOut)), w, Idle)
  }

  function JobOf(pc: Pc): (r: Option<nat>) {
    match pc
    case Idle => None
    case Leasing(j) => Some(j)
    case Started(j) => Some(j)
    case Signing(j, _, _) => Some(j)
    case Recorded(j) => Some(j)
    case Observing(j, _, _, _) => Some(j)
  }

  // An exception: run_once records the failure, if the job is still this worker's.
  function Raised(s: State, w: nat): State {
    match JobOf(At(s, w))
    case Some(j) => Failed(s, w, j, false)
    case None => s
  }

  function StepOpen(s: State, w: nat, j: nat, contentOk: bool): State {
    if j >= |s.db.jobs| || s.db.jobs[j].kind != WriteKind then s
    else
      match SignOpening(s.db, j, w, contentOk)
      case Ok(AlreadyRecorded) => Moved(s, w, Recorded(j))
      case Ok(Proceed(a)) => Moved(s, w, Signing(j, a, Authorized))
      case Err(_) => Raised(s, w)
  }

  // target() of a reading job; it must still be the target the job was made for.
  function StepLook(s: State, w: nat, j: nat, remoteOk: bool): State {
    if j >= |s.db.jobs| || (s.db.jobs[j].kind != PrepareKind && s.db.jobs[j].kind != CheckKind) then s
    else
      match CurrentTarget(s.db, j, w, remoteOk)
      case Ok(t) => if t == s.db.jobs[j].target then Moved(s, w, Observing(j, t, s.db.jobs[j].account, LookTargeted)) else Raised(s, w)
      case Err(_) => Raised(s, w)
  }

  // target() of a signing job: the first time it must be the preview's target, the
  // second time the answer is not compared.
  function StepTarget(s: State, w: nat, j: nat, a: nat, remoteOk: bool, again: bool): State {
    match CurrentTarget(s.db, j, w, remoteOk)
    case Ok(t) =>
      if again then Moved(s, w, Signing(j, a, Ready))
      else if a < |s.db.journal| && s.db.journal[a].Confirmed? && s.db.journal[a].preview < |s.db.journal|
        && s.db.journal[s.db.journal[a].preview].Prepared? && s.db.journal[s.db.journal[a].preview].target == t
      then Moved(s, w, Signing(j, a, Targeted)) else Raised(s, w)
    case Err(_) => Raised(s, w)
  }

  function StepWrite(s: State, w: nat, j: nat, a: nat): State {
    match StartWrite(s.db, j, w, a)
    case Ok(db) => Moved(s.(db := db), w, Signing(j, a, Sending))
    case Err(_) => Raised(s, w)
  }

  function StepPost(s: State, w: nat, j: nat, a: nat): State {
    Moved(s.(issued := s.issued + [a], network := s.network + {KeyOf(s.db.journal, a)}), w, Signing(j, a, Posted))
  }

  function StepClose(s: State, w: nat, j: nat, a: nat): State {
    match SignClosing(s.db, j, w, a)
    case Ok(db) => Moved(s.(db := db), w, Idle)
    case Err(_) => Raised(s, w)
  }

  function StepObserved(s: State, w: nat, pc: Pc, found: bool, passed: bool, repeated: bool): State
    requires pc.Observing?
  {
    match ObserveClosing(s.db, pc.job, w, pc.target, pc.account, found, passed, repeated)
    case Ok(db) => Moved(s.(db := db), w, Idle)
    case Err(_) => Raised(s, w)
  }

  // run_once after execute() has returned a receipt that was already recorded.
  function StepFinish(s: State, w: nat, j: nat): State {
    Moved(if Live(s.db, j, w) then s.(db := Finished(s.db, j)) else s, w, Idle)
  }

  // A scan may answer "none" only if there was none when it began, and "found" only if
  // there is one when it ends: see ExistingSignature.
  predicate ScanMay(seen: bool, found: bool, key: Key, comments: set<Key>) {
    if found then key in comments else !seen
  }

  function WorkerStep(s: State, w: nat, m: Move): State {
    var pc := At(s, w);
    match m
    case Lease(j) =>
      if !pc.Idle? then s
      else (match LeaseJob(s.db, j, w) case Ok(db) => Moved(s.(db := db), w, Leasing(j)) case Err(_) => s)
    case Start =>
      if !pc.Leasing? then s
      else (match StartJob(s.db, pc.job, w) case Ok(db) => Moved(s.(db := db), w, Started(pc.job)) case Err(_) => Moved(s, w, Idle))
    case Open(contentOk) => if pc.Started? then StepOpen(s, w, pc.job, contentOk) else s
    case ReadTarget(remoteOk) =>
      if pc.Started? then StepLook(s, w, pc.job, remoteOk)
      else if pc.Signing? && pc.phase == Authorized then StepTarget(s, w, pc.job, pc.authorization, remoteOk, false)
      else s
    case BeginScan =>
      if pc.Signing? && pc.phase == Targeted
      then Moved(s, w, pc.(phase := Scanning(KeyOf(s.db.journal, pc.authorization) in s.comments)))
      else if pc.Observing? && pc.look == LookTargeted
      then Moved(s, w, pc.(look := LookScanning((pc.target.pr, pc.account.login) in s.comments)))
      else s
    case EndScan(found) =>
      if pc.Signing? && pc.phase.Scanning? && ScanMay(pc.phase.seen, found, KeyOf(s.db.journal, pc.authorization), s.comments)
      then Moved(s, w, pc.(phase := if found then Signed else Unsigned))
      else if pc.Observing? && pc.look.LookScanning? && ScanMay(pc.look.seen, found, (pc.target.pr, pc.account.login), s.comments)
      then Moved(s, w, pc.(look := Looked(found)))
      else s
    case CheckUnsent =>
      if !(pc.Signing? && pc.phase == Unsigned) then s
      else if StartedIn(s.db.journal, pc.authorization) then Raised(s, w)
      else Moved(s, w, pc.(phase := Unsent))
    case ReadAgreement(current) =>
      if !(pc.Signing? && pc.phase == Unsent) then s
      else if !current then Raised(s, w)
      else Moved(s, w, pc.(phase := Reread))
    case ReadTargetAgain(remoteOk) =>
      if pc.Signing? && pc.phase == Reread then StepTarget(s, w, pc.job, pc.authorization, remoteOk, true) else s
    case Write => if pc.Signing? && pc.phase == Ready then StepWrite(s, w, pc.job, pc.authorization) else s
    case Post => if pc.Signing? && pc.phase == Sending then StepPost(s, w, pc.job, pc.authorization) else s
    case Reply =>
      if pc.Signing? && pc.phase == Posted && KeyOf(s.db.journal, pc.authorization) in s.comments
      then Moved(s, w, pc.(phase := Signed)) else s
    case Close(passed, repeated) =>
      if pc.Signing? && pc.phase == Signed then StepClose(s, w, pc.job, pc.authorization)
      else if pc.Observing? && pc.look.Looked? then StepObserved(s, w, pc, pc.look.found, passed, repeated)
      else if pc.Recorded? then StepFinish(s, w, pc.job)
      else s
    case Fail(timedOut) =>
      (match JobOf(pc) case Some(j) => Failed(s, w, j, timedOut) case None => s)
    case Crash => Moved(s, w, Idle)
  }

  // ---------- Everything else that happens ----------

  datatype Step =
    | Work(worker: nat, move: Move)
    | Request(account: Account, key: string, check: bool)
    | Confirm(preview: nat, consent: Consent)
    | ReadRow(session: nat, job: nat)
    | Expire(session: nat)
    | Retry(session: nat)
    | Cancel(session: nat)
    | Arrive(posted: Key)
    | RemoteComment(comment: Key)
    | Republish(target: Option<Target>)
    | Reconnect(connected: Option<Account>)
    | OtherWork(other: Job)
    | OtherDone(done: nat)

  function WithPair(s: State, r: Result<(Db, nat), ClaError>): State {
    match r case Ok(p) => s.(db := p.0) case Err(_) => s
  }

  // A session that writes its row back, and is done.
  function Written(s: State, session: nat, db: Db): State {
    s.(db := db, held := s.held - {session})
  }

  predicate Holds(s: State, session: nat) {
    session in s.held && s.held[session].job < |s.db.jobs|
  }

  function Next(s: State, step: Step): State {
    match step
    case Work(w, m) => WorkerStep(s, w, m)
    case Request(account, key, check) => WithPair(s, RequestCla(s.db, account, key, check))
    case Confirm(preview, consent) => WithPair(s, ConfirmCla(s.db, preview, consent))
    case ReadRow(n, j) => if j < |s.db.jobs| then s.(held := s.held[n := Held(j, s.db.jobs[j])]) else s
    case Expire(n) => if Holds(s, n) then Written(s, n, WriteRecovered(s.db, s.held[n].job, s.held[n].row)) else s
    case Retry(n) => if Holds(s, n) then Written(s, n, WriteRetried(s.db, s.held[n].job, s.held[n].row)) else s
    case Cancel(n) => if Holds(s, n) then Written(s, n, WriteCancelled(s.db, s.held[n].job, s.held[n].row)) else s
    case Arrive(key) => if key in s.network then s.(comments := s.comments + {key}) else s
    case RemoteComment(key) => s.(comments := s.comments + {key})
    case Republish(t) => s.(db := s.db.(published := t))
    case Reconnect(a) => s.(db := s.db.(account := a))
    case OtherWork(job) =>
      if job.kind == OtherKind || job.kind == QuestionKind
      then s.(db := s.db.(jobs := s.db.jobs + [job.(state := Queued, owner := None)], journal := s.db.journal + [OtherEvent]))
      else s
    case OtherDone(j) =>
      if j < |s.db.jobs| && (s.db.jobs[j].kind == OtherKind || s.db.jobs[j].kind == QuestionKind)
      then s.(db := Finished(s.db, j)) else s
  }

  function Run(s: State, steps: seq<Step>): State
    decreases |steps|
  {
    if steps == [] then s else Run(Next(s, steps[0]), steps[1..])
  }

  // ---------- What the journal keeps ----------

  // What each event says about the journal before it.
  predicate EventOk(journal: seq<Event>, i: nat)
    requires i < |journal|
  {
    match journal[i]
    case Confirmed(p, _) =>
      LatestPrepared(journal, i) == Some(p) && !ConsentUsed(journal[..i], p) && !Unresolved(journal[..i])
      && !journal[p].existing && !journal[p].passed
    case WriteStarted(a, j) =>
      a < i && journal[a].Confirmed? && journal[a].job == j
      && LatestPrepared(journal, i) == Some(journal[a].preview) && WritesDiffer(journal, i, a)
    case Submitted(a, _) => a < i && journal[a].Confirmed?
    case _ => true
  }

  // Every write begun before position n was for another (PR, account) than consent a.
  predicate WritesDiffer(journal: seq<Event>, n: nat, a: nat)
    requires n <= |journal|
  {
    forall k | 0 <= k < n && journal[k].WriteStarted? :: KeyOf(journal, journal[k].authorization) != KeyOf(journal, a)
  }

  predicate JournalOk(journal: seq<Event>) {
    forall i | 0 <= i < |journal| :: EventOk(journal, i)
  }

  predicate ReceiptsTrue(journal: seq<Event>, comments: set<Key>) {
    forall i | 0 <= i < |journal| && journal[i].Submitted? :: KeyOf(journal, journal[i].authorization) in comments
  }

  // ---------- What a worker's position says ----------

  predicate Consented(journal: seq<Event>, a: nat, j: nat) {
    a < |journal| && journal[a].Confirmed? && journal[a].job == j
  }

  predicate PcOk(s: State, w: nat, pc: Pc) {
    match pc
    case Signing(j, a, phase) =>
      Consented(s.db.journal, a, j) &&
      (match phase
       case Scanning(seen) => !seen ==> WritesDiffer(s.db.journal, a, a)
       case Unsigned => WritesDiffer(s.db.journal, a, a)
       case Unsent => WritesDiffer(s.db.journal, a, a) && (Live(s.db, j, w) ==> !StartedIn(s.db.journal, a))
       case Reread => WritesDiffer(s.db.journal, a, a) && (Live(s.db, j, w) ==> !StartedIn(s.db.journal, a))
       case Ready => WritesDiffer(s.db.journal, a, a) && (Live(s.db, j, w) ==> !StartedIn(s.db.journal, a))
       case Sending => StartedIn(s.db.journal, a) && a !in s.issued
       case Signed => KeyOf(s.db.journal, a) in s.comments
       case _ => true)
    case Observing(j, target, account, look) => look == Looked(true) ==> (target.pr, account.login) in s.comments
    case _ => true
  }

  predicate WorkersOk(s: State) {
    forall w | w in s.pcs :: PcOk(s, w, s.pcs[w])
  }

  predicate IsSending(pc: Pc, a: nat) {
    pc.Signing? && pc.phase == Sending && pc.authorization == a
  }

  // No two workers are about to make the POST of one consent.
  predicate OneSender(s: State) {
    forall w, v | w in s.pcs && v in s.pcs && w != v && s.pcs[w].Signing? :: s.pcs[w].phase == Sending ==> !IsSending(s.pcs[v], s.pcs[w].authorization)
  }

  predicate IssuedOk(journal: seq<Event>, issued: seq<nat>) {
    && (forall i | 0 <= i < |issued| :: StartedIn(journal, issued[i]))
    && (forall i, k | 0 <= i < k < |issued| :: issued[i] != issued[k])
  }

  predicate Inv(s: State) {
    JournalOk(s.db.journal) && ReceiptsTrue(s.db.journal, s.comments) && WorkersOk(s) && OneSender(s)
    && IssuedOk(s.db.journal, s.issued)
  }

  // ---------- The journal only grows ----------

  lemma {:induction false} LatestStable(short: seq<Event>, long: seq<Event>, n: nat)
    requires short <= long && n <= |short|
    ensures LatestPrepared(short, n) == LatestPrepared(long, n)
  {
    if n > 0 {
      LatestStable(short, long, n - 1);
    }
  }

  // Between two positions with one latest preview, it is the latest throughout.
  lemma {:induction false} LatestBetween(journal: seq<Event>, lo: nat, mid: nat, hi: nat)
    requires lo <= mid <= hi <= |journal|
    requires LatestPrepared(journal, lo).Some? && LatestPrepared(journal, lo) == LatestPrepared(journal, hi)
    ensures LatestPrepared(journal, mid) == LatestPrepared(journal, lo)
  {
    var p := LatestPrepared(journal, lo).value;
    var m := LatestPrepared(journal, mid);
    assert journal[p].Prepared?;
    if m.Some? {
      assert journal[m.value].Prepared?;
      assert m.value >= p;
      assert m.value <= p;
    }
  }

  lemma KeyStable(short: seq<Event>, long: seq<Event>, a: nat)
    requires short <= long && JournalOk(short) && a < |short|
    ensures KeyOf(short, a) == KeyOf(long, a)
  {
    assert EventOk(short, a);
  }

  lemma WritesDifferStable(short: seq<Event>, long: seq<Event>, n: nat, a: nat)
    requires short <= long && JournalOk(short) && n <= |short| && a < |short|
    ensures WritesDiffer(short, n, a) <==> WritesDiffer(long, n, a)
  {
    KeyStable(short, long, a);
    forall k | 0 <= k < n && short[k].WriteStarted?
      ensures KeyOf(short, short[k].authorization) == KeyOf(long, long[k].authorization)
    {
      assert EventOk(short, k);
      KeyStable(short, long, short[k].authorization);
    }
  }

  lemma EventStable(short: seq<Event>, long: seq<Event>, i: nat)
    requires short <= long && JournalOk(short) && i < |short|
    ensures EventOk(long, i)
  {
    assert EventOk(short, i);
    assert short[..i] == long[..i];
    LatestStable(short, long, i);
    if short[i].WriteStarted? {
      WritesDifferStable(short, long, i, short[i].authorization);
    }
  }

  lemma JournalGrows(journal: seq<Event>, e: Event)
    requires JournalOk(journal) && EventOk(journal + [e], |journal|)
    ensures JournalOk(journal + [e])
  {
    forall i | 0 <= i < |journal + [e]| ensures EventOk(journal + [e], i) {
      if i < |journal| {
        EventStable(journal, journal + [e], i);
      }
    }
  }

  lemma ReceiptsGrow(journal: seq<Event>, comments: set<Key>, e: Event, more: set<Key>)
    requires JournalOk(journal) && ReceiptsTrue(journal, comments) && comments <= more
    requires e.Submitted? ==> e.authorization < |journal| && KeyOf(journal, e.authorization) in more
    ensures ReceiptsTrue(journal + [e], more)
  {
    forall i | 0 <= i < |journal + [e]| && (journal + [e])[i].Submitted?
      ensures KeyOf(journal + [e], (journal + [e])[i].authorization) in more
    {
      if i < |journal| {
        assert EventOk(journal, i);
      }
      KeyStable(journal, journal + [e], (journal + [e])[i].authorization);
    }
  }

  lemma StartedStable(short: seq<Event>, long: seq<Event>, a: nat)
    requires short <= long && StartedIn(short, a)
    ensures StartedIn(long, a)
  {
    var k :| 0 <= k < |short| && short[k].WriteStarted? && short[k].authorization == a;
    assert long[k].WriteStarted?;
  }

  // ---------- The two arguments the protocol rests on ----------

  // A consent is recorded only when every earlier write has its receipt. So if the scan
  // begins with no signature there, no earlier write was for the same PR and account.
  lemma UnsignedMeansNew(journal: seq<Event>, comments: set<Key>, a: nat)
    requires JournalOk(journal) && ReceiptsTrue(journal, comments)
    requires a < |journal| && journal[a].Confirmed? && KeyOf(journal, a) !in comments
    ensures WritesDiffer(journal, a, a)
  {
    forall k | 0 <= k < a && journal[k].WriteStarted?
      ensures KeyOf(journal, journal[k].authorization) != KeyOf(journal, a)
    {
      assert EventOk(journal, a);
      var before := journal[..a];
      assert before[k].WriteStarted?;
      assert SubmittedBefore(before, before[k].authorization, |before|);
      var m :| 0 <= m < |before| && before[m].Submitted? && before[m].authorization == before[k].authorization;
      assert journal[m].Submitted?;
    }
  }

  lemma PreviewsDiffer(journal: seq<Event>, a: nat, b: nat)
    requires JournalOk(journal) && a < b < |journal| && journal[a].Confirmed? && journal[b].Confirmed?
    ensures journal[a].preview != journal[b].preview
  {
    assert EventOk(journal, b);
    assert journal[..b][a].Confirmed?;
  }

  // While a consent's preview stays the latest, only that consent's write can begin.
  lemma LatestMeansAlone(journal: seq<Event>, a: nat, k: nat)
    requires JournalOk(journal) && a < k < |journal| && journal[a].Confirmed? && journal[k].WriteStarted?
    requires LatestPrepared(journal, |journal|) == Some(journal[a].preview)
    ensures journal[k].authorization == a
  {
    assert EventOk(journal, a);
    assert EventOk(journal, k);
    var b := journal[k].authorization;
    LatestBetween(journal, a, k, |journal|);
    if b != a {
      PreviewsDiffer(journal, if a < b then a else b, if a < b then b else a);
    }
  }

  lemma UnsentMeansNew(journal: seq<Event>, a: nat)
    requires JournalOk(journal) && a < |journal| && journal[a].Confirmed?
    requires LatestPrepared(journal, |journal|) == Some(journal[a].preview)
    requires WritesDiffer(journal, a, a) && !StartedIn(journal, a)
    ensures WritesDiffer(journal, |journal|, a)
  {
    forall k | 0 <= k < |journal| && journal[k].WriteStarted?
      ensures KeyOf(journal, journal[k].authorization) != KeyOf(journal, a)
    {
      if a < k {
        LatestMeansAlone(journal, a, k);
      }
    }
  }

  // ---------- What does not move a worker ----------

  predicate Grows(s: State, t: State) {
    s.db.journal <= t.db.journal && s.comments <= t.comments
  }

  // Worker w gains no job, and neither its consent's write nor its POST is made by others.
  predicate LeavesAlone(s: State, t: State, w: nat, pc: Pc) {
    pc.Signing? ==>
      && (Live(t.db, pc.job, w) ==> Live(s.db, pc.job, w))
      && (Live(t.db, pc.job, w) && StartedIn(t.db.journal, pc.authorization) ==> StartedIn(s.db.journal, pc.authorization))
      && (pc.phase == Sending ==> pc.authorization in t.issued ==> pc.authorization in s.issued)
  }

  lemma PcKept(s: State, t: State, w: nat, pc: Pc)
    requires JournalOk(s.db.journal) && PcOk(s, w, pc) && Grows(s, t) && LeavesAlone(s, t, w, pc)
    ensures PcOk(t, w, pc)
  {
    if pc.Signing? {
      var a := pc.authorization;
      KeyStable(s.db.journal, t.db.journal, a);
      WritesDifferStable(s.db.journal, t.db.journal, a, a);
      if StartedIn(s.db.journal, a) {
        StartedStable(s.db.journal, t.db.journal, a);
      }
    }
  }

  lemma InvKept(s: State, t: State)
    requires Inv(s) && JournalOk(t.db.journal) && ReceiptsTrue(t.db.journal, t.comments) && IssuedOk(t.db.journal, t.issued)
    requires Grows(s, t) && t.pcs == s.pcs
    requires forall v | v in s.pcs :: LeavesAlone(s, t, v, s.pcs[v])
    ensures Inv(t)
  {
    forall v | v in t.pcs ensures PcOk(t, v, t.pcs[v]) {
      PcKept(s, t, v, s.pcs[v]);
    }
  }

  lemma InvMoved(s: State, t: State, w: nat, pc: Pc)
    requires Inv(s) && JournalOk(t.db.journal) && ReceiptsTrue(t.db.journal, t.comments) && IssuedOk(t.db.journal, t.issued)
    requires Grows(s, t) && t.pcs == s.pcs[w := pc] && PcOk(t, w, pc)
    requires forall v | v in s.pcs && v != w :: LeavesAlone(s, t, v, s.pcs[v])
    requires pc.Signing? && pc.phase == Sending ==> forall v | v in s.pcs && v != w :: !IsSending(s.pcs[v], pc.authorization)
    ensures Inv(t)
  {
    forall v | v in t.pcs ensures PcOk(t, v, t.pcs[v]) {
      if v != w {
        PcKept(s, t, v, s.pcs[v]);
      }
    }
  }

  // A step of worker w that leaves the journal, the POSTs and the comments as they are.
  lemma QuietStep(s: State, t: State, w: nat, pc: Pc)
    requires Inv(s) && t.db.journal == s.db.journal && t.issued == s.issued && t.comments == s.comments
    requires t.pcs == s.pcs[w := pc] && PcOk(t, w, pc) && !(pc.Signing? && pc.phase == Sending)
    requires forall v, j | v != w && Live(t.db, j, v) :: Live(s.db, j, v)
    ensures Inv(t)
  {
    InvMoved(s, t, w, pc);
  }

  lemma FailKeeps(s: State, w: nat, j: nat, timedOut: bool)
    requires Inv(s)
    ensures Inv(Failed(s, w, j, timedOut))
  {
    QuietStep(s, Failed(s, w, j, timedOut), w, Idle);
  }

  lemma RaisedKeeps(s: State, w: nat)
    requires Inv(s)
    ensures Inv(Raised(s, w))
  {
    var j := JobOf(At(s, w));
    if j.Some? {
      FailKeeps(s, w, j.value, false);
    }
  }

  lemma LeaseKeeps(s: State, w: nat, j: nat)
    requires Inv(s)
    ensures Inv(WorkerStep(s, w, Lease(j)))
  {
    var r := LeaseJob(s.db, j, w);
    if At(s, w).Idle? && r.Ok? {
      QuietStep(s, WorkerStep(s, w, Lease(j)), w, Leasing(j));
    }
  }

  lemma StartKeeps(s: State, w: nat)
    requires Inv(s)
    ensures Inv(WorkerStep(s, w, Start))
  {
    var pc := At(s, w);
    if pc.Leasing? {
      QuietStep(s, WorkerStep(s, w, Start), w, if StartJob(s.db, pc.job, w).Ok? then Started(pc.job) else Idle);
    }
  }

  lemma OpenKeeps(s: State, w: nat, contentOk: bool)
    requires Inv(s)
    ensures Inv(WorkerStep(s, w, Open(contentOk)))
  {
    var pc := At(s, w);
    RaisedKeeps(s, w);
    if pc.Started? && pc.job < |s.db.jobs| && s.db.jobs[pc.job].kind == WriteKind {
      var r := SignOpening(s.db, pc.job, w, contentOk);
      if r.Ok? {
        var next := if r.value.Proceed? then Signing(pc.job, r.value.authorization, Authorized) else Recorded(pc.job);
        QuietStep(s, WorkerStep(s, w, Open(contentOk)), w, next);
      }
    }
  }

  lemma LookKeeps(s: State, w: nat, j: nat, remoteOk: bool)
    requires Inv(s)
    ensures Inv(StepLook(s, w, j, remoteOk))
  {
    RaisedKeeps(s, w);
    var r := CurrentTarget(s.db, j, w, remoteOk);
    if j < |s.db.jobs| && r.Ok? && r.value == s.db.jobs[j].target
       && (s.db.jobs[j].kind == PrepareKind || s.db.jobs[j].kind == CheckKind) {
      QuietStep(s, StepLook(s, w, j, remoteOk), w, Observing(j, r.value, s.db.jobs[j].account, LookTargeted));
    }
  }

  lemma TargetKeeps(s: State, w: nat, remoteOk: bool, again: bool)
    requires Inv(s) && At(s, w).Signing? && At(s, w).phase == (if again then Reread else Authorized)
    ensures Inv(StepTarget(s, w, At(s, w).job, At(s, w).authorization, remoteOk, again))
  {
    var pc := At(s, w);
    var t := StepTarget(s, w, pc.job, pc.authorization, remoteOk, again);
    RaisedKeeps(s, w);
    assert PcOk(s, w, pc);
    if t != Raised(s, w) {
      var next := pc.(phase := if again then Ready else Targeted);
      assert PcOk(t, w, next);
      QuietStep(s, t, w, next);
    }
  }

  lemma BeginScanKeeps(s: State, w: nat)
    requires Inv(s)
    ensures Inv(WorkerStep(s, w, BeginScan))
  {
    var pc := At(s, w);
    var t := WorkerStep(s, w, BeginScan);
    if pc.Signing? && pc.phase == Targeted {
      var key := KeyOf(s.db.journal, pc.authorization);
      assert PcOk(s, w, pc);
      if key !in s.comments {
        UnsignedMeansNew(s.db.journal, s.comments, pc.authorization);
      }
      QuietStep(s, t, w, pc.(phase := Scanning(key in s.comments)));
    } else if pc.Observing? && pc.look == LookTargeted {
      QuietStep(s, t, w, pc.(look := LookScanning((pc.target.pr, pc.account.login) in s.comments)));
    }
  }

  lemma EndScanKeeps(s: State, w: nat, found: bool)
    requires Inv(s)
    ensures Inv(WorkerStep(s, w, EndScan(found)))
  {
    var pc := At(s, w);
    var t := WorkerStep(s, w, EndScan(found));
    assert pc.Idle? || PcOk(s, w, pc);
    if t != s {
      if pc.Signing? {
        QuietStep(s, t, w, pc.(phase := if found then Signed else Unsigned));
      } else {
        QuietStep(s, t, w, pc.(look := Looked(found)));
      }
    }
  }

  lemma CheckKeeps(s: State, w: nat)
    requires Inv(s)
    ensures Inv(WorkerStep(s, w, CheckUnsent))
  {
    var pc := At(s, w);
    RaisedKeeps(s, w);
    if pc.Signing? && pc.phase == Unsigned && !StartedIn(s.db.journal, pc.authorization) {
      assert PcOk(s, w, pc);
      QuietStep(s, WorkerStep(s, w, CheckUnsent), w, pc.(phase := Unsent));
    }
  }

  lemma AgreementKeeps(s: State, w: nat, current: bool)
    requires Inv(s)
    ensures Inv(WorkerStep(s, w, ReadAgreement(current)))
  {
    var pc := At(s, w);
    RaisedKeeps(s, w);
    if pc.Signing? && pc.phase == Unsent && current {
      assert PcOk(s, w, pc);
      QuietStep(s, WorkerStep(s, w, ReadAgreement(current)), w, pc.(phase := Reread));
    }
  }

  lemma ReplyKeeps(s: State, w: nat)
    requires Inv(s)
    ensures Inv(WorkerStep(s, w, Reply))
  {
    var pc := At(s, w);
    if pc.Signing? && pc.phase == Posted && KeyOf(s.db.journal, pc.authorization) in s.comments {
      assert PcOk(s, w, pc);
      QuietStep(s, WorkerStep(s, w, Reply), w, pc.(phase := Signed));
    }
  }

  // The write begins: the fence holds the job, the unfenced check of write_started is
  // still true because only the job's owner can have changed it, and the latest preview
  // excludes every later consent.
  lemma WriteKeeps(s: State, w: nat)
    requires Inv(s) && At(s, w).Signing? && At(s, w).phase == Ready
    ensures Inv(StepWrite(s, w, At(s, w).job, At(s, w).authorization))
  {
    var pc := At(s, w);
    var j, a := pc.job, pc.authorization;
    var t := StepWrite(s, w, j, a);
    var journal := s.db.journal;
    RaisedKeeps(s, w);
    assert PcOk(s, w, pc);
    if StartWrite(s.db, j, w, a).Ok? {
      var e := WriteStarted(a, j);
      assert t.db.journal == journal + [e];
      WriteEventOk(journal, a, j);
      JournalGrows(journal, e);
      ReceiptsGrow(journal, s.comments, e, s.comments);
      IssuedGrow(journal, t.db.journal, s.issued);
      assert t.db.journal[|journal|] == e;
      assert StartedIn(t.db.journal, a);
      NotIssued(journal, a, s.issued);
      forall v | v in s.pcs && v != w
        ensures LeavesAlone(s, t, v, s.pcs[v]) && !IsSending(s.pcs[v], a)
      {
        assert PcOk(s, v, s.pcs[v]);
        if s.pcs[v].Signing? {
          OnlyOneStarted(journal, e, s.pcs[v]);
        }
      }
      InvMoved(s, t, w, pc.(phase := Sending));
    }
  }

  lemma WriteEventOk(journal: seq<Event>, a: nat, j: nat)
    requires JournalOk(journal) && Consented(journal, a, j)
    requires LatestPrepared(journal, |journal|) == Some(journal[a].preview)
    requires WritesDiffer(journal, a, a) && !StartedIn(journal, a)
    ensures EventOk(journal + [WriteStarted(a, j)], |journal|)
  {
    var more := journal + [WriteStarted(a, j)];
    UnsentMeansNew(journal, a);
    WritesDifferStable(journal, more, |journal|, a);
    LatestStable(journal, more, |journal|);
  }

  lemma OnlyOneStarted(journal: seq<Event>, e: Event, pc: Pc)
    requires e.WriteStarted? && pc.Signing?
    ensures StartedIn(journal + [e], pc.authorization) ==> StartedIn(journal, pc.authorization) || e.authorization == pc.authorization
  {
    if StartedIn(journal + [e], pc.authorization) && e.authorization != pc.authorization {
      var k :| 0 <= k < |journal + [e]| && (journal + [e])[k].WriteStarted? && (journal + [e])[k].authorization == pc.authorization;
      assert journal[k].WriteStarted?;
    }
  }

  lemma NotIssued(journal: seq<Event>, a: nat, issued: seq<nat>)
    requires IssuedOk(journal, issued) && !StartedIn(journal, a)
    ensures a !in issued
  {
  }

  lemma IssuedGrow(short: seq<Event>, long: seq<Event>, issued: seq<nat>)
    requires short <= long && IssuedOk(short, issued)
    ensures IssuedOk(long, issued)
  {
    forall i | 0 <= i < |issued| ensures StartedIn(long, issued[i]) {
      StartedStable(short, long, issued[i]);
    }
  }

  lemma PostKeeps(s: State, w: nat)
    requires Inv(s) && At(s, w).Signing? && At(s, w).phase == Sending
    ensures Inv(StepPost(s, w, At(s, w).job, At(s, w).authorization))
  {
    var pc := At(s, w);
    var t := StepPost(s, w, pc.job, pc.authorization);
    assert PcOk(s, w, pc);
    forall v | v in s.pcs && v != w ensures LeavesAlone(s, t, v, s.pcs[v]) {
      assert !IsSending(s.pcs[v], s.pcs[w].authorization);
    }
    InvMoved(s, t, w, pc.(phase := Posted));
  }

  // An event that is neither a consent nor the start of a write, and the moves that
  // append it.
  lemma PlainEventOk(journal: seq<Event>, e: Event)
    requires JournalOk(journal) && !e.Confirmed? && !e.WriteStarted?
    requires e.Submitted? ==> e.authorization < |journal| && journal[e.authorization].Confirmed?
    ensures JournalOk(journal + [e])
  {
    JournalGrows(journal, e);
  }

  lemma NoNewStart(journal: seq<Event>, e: Event, a: nat)
    requires !e.WriteStarted?
    ensures StartedIn(journal + [e], a) <==> StartedIn(journal, a)
  {
    if StartedIn(journal + [e], a) {
      var k :| 0 <= k < |journal + [e]| && (journal + [e])[k].WriteStarted? && (journal + [e])[k].authorization == a;
      assert journal[k].WriteStarted?;
    }
    if StartedIn(journal, a) {
      StartedStable(journal, journal + [e], a);
    }
  }

  // The journal after a transaction that starts no write, and the workers it concerns.
  ghost predicate Follows(s: State, journal: seq<Event>, comments: set<Key>) {
    && s.db.journal <= journal && s.comments <= comments
    && JournalOk(journal) && ReceiptsTrue(journal, comments)
    && forall a: nat :: StartedIn(journal, a) <==> StartedIn(s.db.journal, a)
  }

  lemma FollowsAppend(s: State, journal: seq<Event>, comments: set<Key>, e: Event)
    requires Follows(s, journal, comments) && !e.Confirmed? && !e.WriteStarted?
    requires e.Submitted? ==> e.authorization < |journal| && journal[e.authorization].Confirmed? && KeyOf(journal, e.authorization) in comments
    ensures Follows(s, journal + [e], comments)
  {
    PlainEventOk(journal, e);
    ReceiptsGrow(journal, comments, e, comments);
    forall a: nat ensures StartedIn(journal + [e], a) <==> StartedIn(s.db.journal, a) {
      NoNewStart(journal, e, a);
    }
  }

  lemma FollowsMoved(s: State, t: State, w: nat, pc: Pc)
    requires Inv(s) && Follows(s, t.db.journal, t.comments) && t.issued == s.issued
    requires t.pcs == s.pcs[w := pc] && !pc.Signing? && !pc.Observing?
    requires forall v, j | v != w && Live(t.db, j, v) :: Live(s.db, j, v)
    ensures Inv(t)
  {
    IssuedGrow(s.db.journal, t.db.journal, s.issued);
    InvMoved(s, t, w, pc);
  }

  lemma FollowsKept(s: State, t: State)
    requires Inv(s) && Follows(s, t.db.journal, t.comments) && t.issued == s.issued && t.pcs == s.pcs
    requires forall v, j | Live(t.db, j, v) :: Live(s.db, j, v)
    ensures Inv(t)
  {
    IssuedGrow(s.db.journal, t.db.journal, s.issued);
    InvKept(s, t);
  }

  lemma CloseKeeps(s: State, w: nat)
    requires Inv(s) && At(s, w).Signing? && At(s, w).phase == Signed
    ensures Inv(StepClose(s, w, At(s, w).job, At(s, w).authorization))
  {
    var pc := At(s, w);
    var t := StepClose(s, w, pc.job, pc.authorization);
    RaisedKeeps(s, w);
    assert PcOk(s, w, pc);
    if SignClosing(s.db, pc.job, w, pc.authorization).Ok? {
      if t.db.journal != s.db.journal {
        FollowsAppend(s, s.db.journal, s.comments, Submitted(pc.authorization, pc.job));
      }
      FollowsMoved(s, t, w, Idle);
    }
  }

  lemma ObservedKeeps(s: State, w: nat, passed: bool, repeated: bool)
    requires Inv(s) && At(s, w).Observing? && At(s, w).look.Looked?
    ensures Inv(StepObserved(s, w, At(s, w), At(s, w).look.found, passed, repeated))
  {
    var pc := At(s, w);
    var found := pc.look.found;
    RaisedKeeps(s, w);
    assert PcOk(s, w, pc);
    var r := ObserveClosing(s.db, pc.job, w, pc.target, pc.account, found, passed, repeated);
    if r.Ok? {
      var journal := ObservedJournal(s, w, pc, passed, repeated);
      FollowsMoved(s, StepObserved(s, w, pc, found, passed, repeated), w, Idle);
    }
  }

  lemma ObservedJournal(s: State, w: nat, pc: Pc, passed: bool, repeated: bool) returns (journal: seq<Event>)
    requires Inv(s) && pc.Observing? && pc.look.Looked? && PcOk(s, w, pc)
    requires ObserveClosing(s.db, pc.job, w, pc.target, pc.account, pc.look.found, passed, repeated).Ok?
    ensures journal == ObserveClosing(s.db, pc.job, w, pc.target, pc.account, pc.look.found, passed, repeated).value.journal
    ensures Follows(s, journal, s.comments)
  {
    journal := s.db.journal;
    var known := HasStatus(journal, pc.job);
    if s.db.jobs[pc.job].kind == PrepareKind {
      var e := Prepared(pc.target, pc.account, pc.look.found, passed);
      FollowsAppend(s, journal, s.comments, e);
      journal := journal + [e];
    }
    var a := OpenAuthorization(journal, pc.target, pc.account);
    if pc.look.found && a.Some? {
      FollowsAppend(s, journal, s.comments, Submitted(a.value, pc.job));
      journal := journal + [Submitted(a.value, pc.job)];
    }
    if !known {
      FollowsAppend(s, journal, s.comments, StatusObserved(pc.job));
      journal := journal + [StatusObserved(pc.job)];
    }
  }

  lemma FinishKeeps(s: State, w: nat, j: nat)
    requires Inv(s)
    ensures Inv(StepFinish(s, w, j))
  {
    QuietStep(s, StepFinish(s, w, j), w, Idle);
  }

  lemma WorkerKeeps(s: State, w: nat, m: Move)
    requires Inv(s)
    ensures Inv(WorkerStep(s, w, m))
  {
    var pc := At(s, w);
    match m
    case Lease(j) => LeaseKeeps(s, w, j);
    case Start => StartKeeps(s, w);
    case Open(contentOk) => OpenKeeps(s, w, contentOk);
    case ReadTarget(remoteOk) =>
      if pc.Started? {
        LookKeeps(s, w, pc.job, remoteOk);
      } else if pc.Signing? && pc.phase == Authorized {
        TargetKeeps(s, w, remoteOk, false);
      }
    case BeginScan => BeginScanKeeps(s, w);
    case EndScan(found) => EndScanKeeps(s, w, found);
    case CheckUnsent => CheckKeeps(s, w);
    case ReadAgreement(current) => AgreementKeeps(s, w, current);
    case ReadTargetAgain(remoteOk) =>
      if pc.Signing? && pc.phase == Reread {
        TargetKeeps(s, w, remoteOk, true);
      }
    case Write =>
      if pc.Signing? && pc.phase == Ready {
        WriteKeeps(s, w);
      }
    case Post =>
      if pc.Signing? && pc.phase == Sending {
        PostKeeps(s, w);
      }
    case Reply => ReplyKeeps(s, w);
    case Close(passed, repeated) =>
      if pc.Signing? && pc.phase == Signed {
        CloseKeeps(s, w);
      } else if pc.Observing? && pc.look.Looked? {
        ObservedKeeps(s, w, passed, repeated);
      } else if pc.Recorded? {
        FinishKeeps(s, w, pc.job);
      }
    case Fail(timedOut) =>
      if JobOf(pc).Some? {
        FailKeeps(s, w, JobOf(pc).value, timedOut);
      }
    case Crash => QuietStep(s, Moved(s, w, Idle), w, Idle);
  }

  // ---------- The other steps ----------

  lemma ConfirmKeeps(s: State, preview: nat, c: Consent)
    requires Inv(s)
    ensures Inv(WithPair(s, ConfirmCla(s.db, preview, c)))
  {
    var r := ConfirmCla(s.db, preview, c);
    if r.Ok? {
      var journal := s.db.journal;
      var e := Confirmed(preview, |s.db.jobs|);
      var t := WithPair(s, r);
      assert t.db.journal == journal + [e];
      LatestStable(journal, journal + [e], |journal|);
      assert (journal + [e])[..|journal|] == journal;
      JournalGrows(journal, e);
      ReceiptsGrow(journal, s.comments, e, s.comments);
      forall a: nat ensures StartedIn(journal + [e], a) <==> StartedIn(journal, a) {
        NoNewStart(journal, e, a);
      }
      assert Follows(s, t.db.journal, t.comments);
      FollowsKept(s, t);
    }
  }

  lemma RequestKeeps(s: State, account: Account, key: string, check: bool)
    requires Inv(s)
    ensures Inv(WithPair(s, RequestCla(s.db, account, key, check)))
  {
    var t := WithPair(s, RequestCla(s.db, account, key, check));
    if t.db.journal != s.db.journal {
      FollowsAppend(s, s.db.journal, s.comments, OtherEvent);
    }
    FollowsKept(s, t);
  }

  lemma JobsKeep(s: State, t: State)
    requires Inv(s) && t == s.(db := s.db.(jobs := t.db.jobs), held := t.held)
    requires forall v, j | Live(t.db, j, v) :: Live(s.db, j, v)
    ensures Inv(t)
  {
    FollowsKept(s, t);
  }

  lemma CommentKeeps(s: State, key: Key)
    requires Inv(s)
    ensures Inv(s.(comments := s.comments + {key}))
  {
    FollowsKept(s, s.(comments := s.comments + {key}));
  }

  lemma OtherWorkKeeps(s: State, job: Job)
    requires Inv(s)
    ensures Inv(Next(s, OtherWork(job)))
  {
    var t := Next(s, OtherWork(job));
    if t.db.journal != s.db.journal {
      FollowsAppend(s, s.db.journal, s.comments, OtherEvent);
    }
    FollowsKept(s, t);
  }

  lemma StepKeeps(s: State, step: Step)
    requires Inv(s)
    ensures Inv(Next(s, step))
  {
    match step
    case Work(w, m) => WorkerKeeps(s, w, m);
    case Request(account, key, check) => RequestKeeps(s, account, key, check);
    case Confirm(preview, consent) => ConfirmKeeps(s, preview, consent);
    case ReadRow(_, _) => JobsKeep(s, Next(s, step));
    case Expire(n) => JobsKeep(s, Next(s, step));
    case Retry(n) => JobsKeep(s, Next(s, step));
    case Cancel(n) => JobsKeep(s, Next(s, step));
    case Arrive(key) => CommentKeeps(s, key);
    case RemoteComment(key) => CommentKeeps(s, key);
    case Republish(_) => FollowsKept(s, Next(s, step));
    case Reconnect(_) => FollowsKept(s, Next(s, step));
    case OtherWork(job) => OtherWorkKeeps(s, job);
    case OtherDone(j) => JobsKeep(s, Next(s, step));
  }

  lemma {:induction false} RunKeeps(s: State, steps: seq<Step>)
    requires Inv(s)
    ensures Inv(Run(s, steps))
    decreases |steps|
  {
    if steps != [] {
      StepKeeps(s, steps[0]);
      RunKeeps(Next(s, steps[0]), steps[1..]);
    }
  }

  // ---------- What the protocol promises ----------

  lemma WritesApart(journal: seq<Event>, p: nat, q: nat)
    requires JournalOk(journal) && p < q < |journal| && journal[p].WriteStarted? && journal[q].WriteStarted?
    ensures KeyOf(journal, journal[p].authorization) != KeyOf(journal, journal[q].authorization)
  {
    assert EventOk(journal, q);
  }

  // In every run, no two signature POSTs are for the same PR and account, and every one
  // is made for a recorded consent.
  lemma AtMostOncePerPrAndAccount(start: State, steps: seq<Step>, i: nat, k: nat)
    requires Initial(start) && i < k < |Run(start, steps).issued|
    ensures var s := Run(start, steps);
      KeyOf(s.db.journal, s.issued[i]) != KeyOf(s.db.journal, s.issued[k])
  {
    RunKeeps(start, steps);
    var s := Run(start, steps);
    var journal := s.db.journal;
    assert StartedIn(journal, s.issued[i]) && StartedIn(journal, s.issued[k]) && s.issued[i] != s.issued[k];
    var p :| 0 <= p < |journal| && journal[p].WriteStarted? && journal[p].authorization == s.issued[i];
    var q :| 0 <= q < |journal| && journal[q].WriteStarted? && journal[q].authorization == s.issued[k];
    WritesApart(journal, if p < q then p else q, if p < q then q else p);
  }

  // What the user agreed to is what was sent: the consent's preview is an earlier
  // prepared event that showed neither a signature nor a passed check, the latest one
  // both when the user agreed and when the write began.
  lemma EveryPostWasAuthorized(start: State, steps: seq<Step>, i: nat)
    requires Initial(start) && i < |Run(start, steps).issued|
    ensures var s := Run(start, steps);
      var a := s.issued[i];
      a < |s.db.journal| && s.db.journal[a].Confirmed?
      && LatestPrepared(s.db.journal, a) == Some(s.db.journal[a].preview)
      && !s.db.journal[s.db.journal[a].preview].existing && !s.db.journal[s.db.journal[a].preview].passed
      && exists k | a < k < |s.db.journal| :: s.db.journal[k] == WriteStarted(a, s.db.journal[a].job)
           && LatestPrepared(s.db.journal, k) == Some(s.db.journal[a].preview)
  {
    RunKeeps(start, steps);
    var s := Run(start, steps);
    var journal := s.db.journal;
    var a := s.issued[i];
    assert StartedIn(journal, a);
    var k :| 0 <= k < |journal| && journal[k].WriteStarted? && journal[k].authorization == a;
    assert EventOk(journal, k);
    assert EventOk(journal, a);
    assert journal[k] == WriteStarted(a, journal[a].job);
  }

  // A receipt is never invented: the comment it records is on the remote.
  lemma EveryReceiptHasItsComment(start: State, steps: seq<Step>, k: nat)
    requires Initial(start) && k < |Run(start, steps).db.journal| && Run(start, steps).db.journal[k].Submitted?
    ensures var s := Run(start, steps);
      KeyOf(s.db.journal, s.db.journal[k].authorization) in s.comments
  {
    RunKeeps(start, steps);
  }
}
