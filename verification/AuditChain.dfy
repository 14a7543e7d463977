// app/audit.py: the append-only audit log, chained by the hash of every event.
// The digest function is a parameter throughout. Nothing assumes that it has no
// collisions; where one would be needed, the collision itself is exhibited.
module AuditChain {
  import opened Prelude
  import opened Canonical
  import opened Ordering
  import Text

  datatype Event = Event(
    id: string,
    sequence: int,
    eventType: string,
    actorType: string,
    actorId: string,
    correlationId: string,
    payload: Json,
    payloadHash: string,
    previousHash: Option<string>,
    eventHash: string,
    createdAt: string)

  function HashJson(h: Option<string>): Json {
    match h case None => Null case Some(t) => Str(t)
  }

  // The fields _event_hash covers, by position. The row id is not among them.
  const FIELDS := 8

  function FieldName(i: nat): string {
    match i
    case 0 => "sequence"
    case 1 => "event_type"
    case 2 => "actor_type"
    case 3 => "actor_id"
    case 4 => "correlation_id"
    case 5 => "payload_hash"
    case 6 => "previous_event_hash"
    case _ => "created_at"
  }

  function FieldValue(e: Event, i: nat): Json {
    match i
    case 0 => Num(e.sequence)
    case 1 => Str(e.eventType)
    case 2 => Str(e.actorType)
    case 3 => Str(e.actorId)
    case 4 => Str(e.correlationId)
    case 5 => Str(e.payloadHash)
    case 6 => HashJson(e.previousHash)
    case _ => Str(e.createdAt)
  }

  function HashedFields(e: Event): Members {
    seq(FIELDS, i requires 0 <= i < FIELDS => (FieldName(i), FieldValue(e, i)))
  }

  function EventText(e: Event): string {
    CanonicalJson(Obj(HashedFields(e)))
  }

  // ---------- Verification ----------

  datatype Fault =
    | SequenceGap(expected: int, got: int)
    | PayloadMismatch(sequence: int)
    | PreviousMismatch(sequence: int)
    | EventMismatch(sequence: int)

  // The four checks of verify(), in their order.
  function FaultOf(sha: string -> string, e: Event, position: int, previous: Option<string>): Option<Fault> {
    if e.sequence != position then Some(SequenceGap(position, e.sequence))
    else if e.payloadHash != ContentHash(sha, e.payload) then Some(PayloadMismatch(e.sequence))
    else if e.previousHash != previous then Some(PreviousMismatch(e.sequence))
    else if e.eventHash != sha(EventText(e)) then Some(EventMismatch(e.sequence))
    else None
  }

  function LastHash(log: seq<Event>): Option<string> {
    if log == [] then None else Some(log[|log| - 1].eventHash)
  }

  // Every event passes the checks at its position, after its predecessor.
  ghost predicate Chained(sha: string -> string, log: seq<Event>) {
    forall i | 0 <= i < |log| :: LinkHolds(sha, log, i)
  }

  predicate LinkHolds(sha: string -> string, log: seq<Event>, i: nat)
    requires i < |log|
  {
    FaultOf(sha, log[i], i + 1, LastHash(log[..i])) == None
  }

  datatype Verification = Verification(valid: bool, checked: nat, fault: Option<Fault>)

  // ---------- Preparing an event ----------

  datatype Request = Request(
    eventType: string, actorType: string, actorId: string, correlationId: string,
    payload: Json, sensitive: bool, id: string, now: string)

  datatype PrepareError = BadField(name: string) | SensitiveData

  predicate FieldOk(s: string, limit: nat) {
    1 <= |Text.Strip(s)| <= limit
  }

  function Refusal(r: Request): Option<PrepareError> {
    if !FieldOk(r.eventType, 100) then Some(BadField("event_type"))
    else if !FieldOk(r.actorType, 40) then Some(BadField("actor_type"))
    else if !FieldOk(r.actorId, 128) then Some(BadField("actor_id"))
    else if !FieldOk(r.correlationId, 128) then Some(BadField("correlation_id"))
    else if r.sensitive then Some(SensitiveData)
    else None
  }

  function NewEvent(sha: string -> string, log: seq<Event>, r: Request): Event {
    var bare := BareEvent(sha, log, r);
    bare.(eventHash := sha(EventText(bare)))
  }

  function BareEvent(sha: string -> string, log: seq<Event>, r: Request): Event {
    Event(
      r.id,
      if log == [] then 1 else log[|log| - 1].sequence + 1,
      Text.Strip(r.eventType), Text.Strip(r.actorType), Text.Strip(r.actorId), Text.Strip(r.correlationId),
      r.payload, ContentHash(sha, r.payload), LastHash(log), "", r.now)
  }

  // The last row is the event that request r makes of the rows before it.
  predicate EndsWith(sha: string -> string, log: seq<Event>, r: Request, e: Event) {
    log != [] && log[|log| - 1] == e && e == NewEvent(sha, log[..|log| - 1], r)
  }

  function Appended(sha: string -> string, log: seq<Event>, r: Request): seq<Event> {
    if Refusal(r).Some? then log else log + [NewEvent(sha, log, r)]
  }

  // Other sessions' events, prepared and committed one after another.
  function Extended(sha: string -> string, log: seq<Event>, rs: seq<Request>): seq<Event>
    decreases |rs|
  {
    if rs == [] then log else Extended(sha, Appended(sha, log, rs[0]), rs[1..])
  }

  // What n sessions in turn commit.
  function ExtendedBy(sha: string -> string, log: seq<Event>, rivals: seq<seq<Request>>, n: nat): seq<Event>
    requires n <= |rivals|
  {
    if n == 0 then log else Extended(sha, ExtendedBy(sha, log, rivals, n - 1), rivals[n - 1])
  }

  lemma {:induction false} ExtendedByGrows(sha: string -> string, log: seq<Event>, rivals: seq<seq<Request>>, n: nat)
    requires n <= |rivals| && Chained(sha, log)
    ensures Chained(sha, ExtendedBy(sha, log, rivals, n)) && log <= ExtendedBy(sha, log, rivals, n)
  {
    if n > 0 {
      ExtendedByGrows(sha, log, rivals, n - 1);
      ExtendedKeepsChain(sha, ExtendedBy(sha, log, rivals, n - 1), rivals[n - 1]);
    }
  }

  // Some request of a session is accepted.
  predicate Commits(rs: seq<Request>) {
    rs != [] && (Refusal(rs[0]).None? || Commits(rs[1..]))
  }

  // Each of the first n sessions commits something.
  predicate AllCommit(rivals: seq<seq<Request>>, n: nat)
    requires n <= |rivals|
  {
    n == 0 || (AllCommit(rivals, n - 1) && Commits(rivals[n - 1]))
  }

  lemma {:induction false} OneDoesNot(rivals: seq<seq<Request>>, i: nat, n: nat)
    requires i < n <= |rivals| && !Commits(rivals[i])
    ensures !AllCommit(rivals, n)
  {
    if i < n - 1 {
      OneDoesNot(rivals, i, n - 1);
    }
  }

  // Requests that are all refused leave the log as it was.
  lemma {:induction false} ExtendedIsLongerIff(sha: string -> string, log: seq<Event>, rs: seq<Request>)
    ensures |Extended(sha, log, rs)| > |log| <==> Commits(rs)
    ensures |Extended(sha, log, rs)| >= |log| && (!Commits(rs) ==> Extended(sha, log, rs) == log)
    decreases |rs|
  {
    if rs != [] {
      ExtendedIsLongerIff(sha, Appended(sha, log, rs[0]), rs[1..]);
    }
  }

  lemma LinkStays(sha: string -> string, log: seq<Event>, longer: seq<Event>, i: nat)
    requires i < |log| <= |longer| && longer[..|log|] == log
    ensures LinkHolds(sha, longer, i) == LinkHolds(sha, log, i)
  {
    assert longer[i] == log[i] && longer[..i] == log[..i];
  }

  lemma ChainGrows(sha: string -> string, log: seq<Event>, e: Event)
    requires Chained(sha, log) && FaultOf(sha, e, |log| + 1, LastHash(log)) == None
    ensures Chained(sha, log + [e])
  {
    var longer := log + [e];
    assert longer[..|log|] == log && longer[|log|] == e;
    forall i | 0 <= i < |longer| ensures LinkHolds(sha, longer, i) {
      if i < |log| {
        LinkStays(sha, log, longer, i);
      }
    }
  }

  lemma TextIgnoresOwnHash(e: Event, h: string)
    ensures EventText(e.(eventHash := h)) == EventText(e)
  {
    assert HashedFields(e.(eventHash := h)) == HashedFields(e);
  }

  lemma NewEventHolds(sha: string -> string, log: seq<Event>, r: Request)
    requires log != [] ==> log[|log| - 1].sequence == |log|
    ensures FaultOf(sha, NewEvent(sha, log, r), |log| + 1, LastHash(log)) == None
  {
    TextIgnoresOwnHash(BareEvent(sha, log, r), sha(EventText(BareEvent(sha, log, r))));
  }

  lemma NewEventKeepsChain(sha: string -> string, log: seq<Event>, r: Request)
    requires Chained(sha, log)
    ensures Chained(sha, log + [NewEvent(sha, log, r)])
  {
    assert log != [] ==> LinkHolds(sha, log, |log| - 1);
    NewEventHolds(sha, log, r);
    ChainGrows(sha, log, NewEvent(sha, log, r));
  }

  lemma AppendedKeepsChain(sha: string -> string, log: seq<Event>, r: Request)
    requires Chained(sha, log)
    ensures Chained(sha, Appended(sha, log, r)) && log <= Appended(sha, log, r)
  {
    NewEventKeepsChain(sha, log, r);
  }

  lemma {:induction false} ExtendedKeepsChain(sha: string -> string, log: seq<Event>, rs: seq<Request>)
    requires Chained(sha, log)
    ensures Chained(sha, Extended(sha, log, rs)) && log <= Extended(sha, log, rs)
    decreases |rs|
  {
    if rs != [] {
      AppendedKeepsChain(sha, log, rs[0]);
      ExtendedKeepsChain(sha, Appended(sha, log, rs[0]), rs[1..]);
    }
  }

  // A sound chain has sound beginnings only.
  lemma PrefixChained(sha: string -> string, log: seq<Event>, n: nat)
    requires n <= |log| && Chained(sha, log)
    ensures Chained(sha, log[..n])
  {
    forall i | 0 <= i < n ensures LinkHolds(sha, log[..n], i) {
      LinkStays(sha, log[..n], log, i);
    }
  }

  lemma BrokenStaysBroken(sha: string -> string, log: seq<Event>, k: nat)
    requires k < |log| && !LinkHolds(sha, log, k)
    ensures forall n :: k < n <= |log| ==> !Chained(sha, log[..n])
  {
    forall n | k < n <= |log| ensures !Chained(sha, log[..n]) {
      LinkStays(sha, log[..n], log, k);
    }
  }

  class AuditLog {
    const sha: string -> string
    var events: seq<Event>  // the table, in order of sequence

    constructor (sha: string -> string)
      ensures this.sha == sha && events == [] && Chained(sha, events)
    {
      this.sha := sha;
      events := [];
    }

    // Adds one event after the last row. A refused request leaves the log alone; an
    // accepted one keeps a sound chain sound.
    method Prepare(r: Request) returns (result: Result<Event, PrepareError>)
      modifies this
      ensures Refusal(r).Some? ==> result == Err(Refusal(r).value) && events == old(events)
      ensures Refusal(r).None? ==> result == Ok(NewEvent(sha, old(events), r)) && events == old(events) + [result.value]
      ensures old(Chained(sha, events)) ==> Chained(sha, events)
    {
      var refusal := Refusal(r);
      if refusal.Some? {
        return Err(refusal.value);
      }
      if Chained(sha, events) {
        NewEventKeepsChain(sha, events, r);
      }
      var event := NewEvent(sha, events, r);
      events := events + [event];
      return Ok(event);
    }

    // The walk over the rows: how far the chain is sound, and the first fault.
    method Verify() returns (v: Verification)
      ensures v.checked <= |events| && Chained(sha, events[..v.checked])
      ensures v.valid <==> v.checked == |events|
      ensures v.valid <==> Chained(sha, events)
      ensures forall n :: v.checked < n <= |events| ==> !Chained(sha, events[..n])
      ensures v.fault == if v.valid then None
                         else FaultOf(sha, events[v.checked], v.checked + 1, LastHash(events[..v.checked]))
    {
      var previousHash: Option<string> := None;
      var expected := 1;
      for k := 0 to |events|
        invariant expected == k + 1 && previousHash == LastHash(events[..k])
        invariant Chained(sha, events[..k])
      {
        var fault := FaultOf(sha, events[k], expected, previousHash);
        if fault.Some? {
          BrokenStaysBroken(sha, events, k);
          assert events[..|events|] == events;
          return Verification(false, k, fault);
        }
        ChainGrows(sha, events[..k], events[k]);
        assert events[..k] + [events[k]] == events[..k + 1];
        previousHash := Some(events[k].eventHash);
        expected := expected + 1;
      }
      assert events[..|events|] == events;
      return Verification(true, |events|, None);
    }

    // Prepare, and commit unless another session's commit has taken our sequence number.
    method TryCommit(r: Request, rivals: seq<Request>) returns (event: Event, conflict: bool)
      requires Chained(sha, events) && Refusal(r).None?
      modifies this
      ensures Chained(sha, events)
      ensures conflict <==> Commits(rivals)
      ensures conflict ==> events == Extended(sha, old(events), rivals)
      ensures !conflict ==> events == old(events) + [event] && EndsWith(sha, events, r, event)
    {
      event := NewEvent(sha, events, r);
      var taken := Extended(sha, events, rivals);
      ExtendedIsLongerIff(sha, events, rivals);
      ExtendedKeepsChain(sha, events, rivals);
      conflict := |taken| != |events|;
      if conflict {
        events := taken;
      } else {
        NewEventKeepsChain(sha, events, r);
        events := events + [event];
        assert events[..|events| - 1] == old(events);
      }
    }

    // append(): up to three attempts. While attempt i is under way other sessions try
    // rivals[i].
    method Append(r: Request, rivals: seq<seq<Request>>) returns (result: Result<Event, PrepareError>, conflict: bool)
      requires |rivals| == 3 && Chained(sha, events)
      modifies this
      ensures Chained(sha, events) && old(events) <= events
      ensures Refusal(r).Some? ==> !conflict && result == Err(Refusal(r).value) && events == old(events)
      ensures Refusal(r).None? && !conflict ==> result.Ok? && EndsWith(sha, events, r, result.value)
      ensures conflict <==> Refusal(r).None? && AllCommit(rivals, |rivals|)
      ensures conflict ==> events == ExtendedBy(sha, old(events), rivals, |rivals|)
    {
      var refusal := Refusal(r);
      if refusal.Some? {
        return Err(refusal.value), false;
      }
      result, conflict := Err(SensitiveData), true;
      for attempt := 0 to |rivals|
        invariant conflict && Chained(sha, events)
        invariant events == ExtendedBy(sha, old(events), rivals, attempt)
        invariant AllCommit(rivals, attempt)
      {
        ExtendedByGrows(sha, old(events), rivals, attempt);
        var event;
        event, conflict := TryCommit(r, rivals[attempt]);
        if !conflict {
          OneDoesNot(rivals, attempt, |rivals|);
          return Ok(event), false;
        }
      }
      ExtendedByGrows(sha, old(events), rivals, |rivals|);
    }
  }

  // ---------- The last hash binds the whole log ----------

  // Agreement on everything but the row id; payloads up to member order.
  predicate SameEvent(a: Event, b: Event) {
    && a.(id := b.id, payload := b.payload) == b
    && Same(a.payload, b.payload)
  }

  ghost predicate SameLog(a: seq<Event>, b: seq<Event>) {
    |a| == |b| && forall i | 0 <= i < |a| :: SameEvent(a[i], b[i])
  }

  // A text whose digest was taken for some event of the log.
  ghost predicate HashedFor(x: string, log: seq<Event>) {
    exists e | e in log :: HashedForEvent(x, e)
  }

  ghost predicate HashedForEvent(x: string, e: Event) {
    x == EventText(e) || x == CanonicalJson(e.payload)
  }

  // Two different texts with one digest, one hashed for each log.
  ghost predicate Collision(sha: string -> string, x: string, y: string, a: seq<Event>, b: seq<Event>) {
    x != y && sha(x) == sha(y) && HashedFor(x, a) && HashedFor(y, b)
  }

  lemma CollisionGrows(sha: string -> string, x: string, y: string, a: seq<Event>, b: seq<Event>, a': seq<Event>, b': seq<Event>)
    requires Collision(sha, x, y, a, b)
    requires (forall e | e in a :: e in a') && (forall e | e in b :: e in b')
    ensures Collision(sha, x, y, a', b')
  {
    var e :| e in a && HashedForEvent(x, e);
    var f :| f in b && HashedForEvent(y, f);
    assert e in a' && f in b';
  }

  lemma FieldsUnique(e: Event)
    ensures DistinctKeys(HashedFields(e)) && Unique(Obj(HashedFields(e)))
  {
    forall i, j | 0 <= i < j < FIELDS ensures FieldName(i) != FieldName(j) {
      assert FieldName(0)[0] == 's' && FieldName(1)[0] == 'e' && FieldName(5)[..2] == "pa" && FieldName(6)[..2] == "pr";
      assert FieldName(2)[6] == 't' && FieldName(3)[6] == 'i' && FieldName(4)[1] == 'o' && FieldName(7)[1] == 'r';
    }
  }

  // Equal texts come from equal fields.
  lemma EventTextBinds(a: Event, b: Event)
    requires EventText(a) == EventText(b)
    ensures a.(id := b.id, payload := b.payload, eventHash := b.eventHash) == b
  {
    FieldsUnique(a);
    FieldsUnique(b);
    RecordTextsAgree(HashedFields(a), HashedFields(b));
    forall i | 0 <= i < FIELDS ensures Same(FieldValue(a, i), FieldValue(b, i)) {
      assert HashedFields(a)[i] == (FieldName(i), FieldValue(a, i));
      assert HashedFields(b)[i] == (FieldName(i), FieldValue(b, i));
    }
    assert Same(FieldValue(a, 0), FieldValue(b, 0)) && Same(FieldValue(a, 1), FieldValue(b, 1));
    assert Same(FieldValue(a, 2), FieldValue(b, 2)) && Same(FieldValue(a, 3), FieldValue(b, 3));
    assert Same(FieldValue(a, 4), FieldValue(b, 4)) && Same(FieldValue(a, 5), FieldValue(b, 5));
    assert Same(FieldValue(a, 6), FieldValue(b, 6)) && Same(FieldValue(a, 7), FieldValue(b, 7));
  }

  // One event, out of two that verify and carry the same hash.
  lemma EventAgreesOrCollides(sha: string -> string, a: Event, b: Event, p: int, q: int, pa: Option<string>, pb: Option<string>)
    returns (x: string, y: string)
    requires Unique(a.payload) && Unique(b.payload)
    requires FaultOf(sha, a, p, pa) == None && FaultOf(sha, b, q, pb) == None
    requires a.eventHash == b.eventHash
    ensures || (SameEvent(a, b) && p == q && pa == pb)
            || Collision(sha, x, y, [a], [b])
  {
    x, y := EventText(a), EventText(b);
    assert a in [a] && b in [b];
    if x == y {
      EventTextBinds(a, b);
      x, y := CanonicalJson(a.payload), CanonicalJson(b.payload);
      CanonicalInjective(a.payload, b.payload);
    }
  }

  // Payloads are Python dicts: distinct keys at every depth.
  ghost predicate DictPayloads(log: seq<Event>) {
    forall e | e in log :: Unique(e.payload)
  }

  // The last events of two logs that end in one hash.
  lemma LastEventsAgreeOrCollide(sha: string -> string, a: seq<Event>, b: seq<Event>)
    returns (x: string, y: string)
    requires a != [] && b != [] && DictPayloads(a) && DictPayloads(b)
    requires Chained(sha, a) && Chained(sha, b) && LastHash(a) == LastHash(b)
    ensures || (|a| == |b| && SameEvent(a[|a| - 1], b[|b| - 1]) && LastHash(a[..|a| - 1]) == LastHash(b[..|b| - 1]))
            || Collision(sha, x, y, a, b)
  {
    var m, n := |a| - 1, |b| - 1;
    assert LinkHolds(sha, a, m) && LinkHolds(sha, b, n);
    assert a[m] in a && b[n] in b;
    x, y := EventAgreesOrCollides(sha, a[m], b[n], m + 1, n + 1, LastHash(a[..m]), LastHash(b[..n]));
    if Collision(sha, x, y, [a[m]], [b[n]]) {
      CollisionGrows(sha, x, y, [a[m]], [b[n]], a, b);
    }
  }

  // Main result: two logs that both verify and end in the same hash are the same log,
  // or two different texts hashed for them have the same digest.
  lemma {:induction false} LastHashBindsLog(sha: string -> string, a: seq<Event>, b: seq<Event>)
    returns (x: string, y: string)
    requires DictPayloads(a) && DictPayloads(b)
    requires Chained(sha, a) && Chained(sha, b) && LastHash(a) == LastHash(b)
    ensures SameLog(a, b) || Collision(sha, x, y, a, b)
  {
    x, y := "", "";
    if a != [] && b != [] {
      x, y := LastEventsAgreeOrCollide(sha, a, b);
      if !Collision(sha, x, y, a, b) {
        var m := |a| - 1;
        PrefixChained(sha, a, m);
        PrefixChained(sha, b, m);
        x, y := LastHashBindsLog(sha, a[..m], b[..m]);
        if SameLog(a[..m], b[..m]) {
          SameLogGrows(a, b);
        } else {
          CollisionGrows(sha, x, y, a[..m], b[..m], a, b);
        }
      }
    }
  }

  lemma SameLogGrows(a: seq<Event>, b: seq<Event>)
    requires |a| == |b| && a != [] && SameEvent(a[|a| - 1], b[|b| - 1])
    requires SameLog(a[..|a| - 1], b[..|b| - 1])
    ensures SameLog(a, b)
  {
    assert forall i | 0 <= i < |a| - 1 :: a[..|a| - 1][i] == a[i] && b[..|b| - 1][i] == b[i];
  }
}
