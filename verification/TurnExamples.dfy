// Runs of a turn that go beyond what its four calls promise.
module TurnExamples {
  import opened Prelude
  import opened Jobs
  import opened TurnProtocol
  import opened TurnRuntime
  import opened TurnProofs
  import opened TurnReplays

  // An action, chosen on facts that have moved on, or that still hold.
  const ADVANCE := Decision("r", "advance", [], [], Some(Command))
  const MOVED_ON := Facts(false, false, true, false)
  const STILL := Facts(true, false, true, false)

  // ---------- Pieces of a run ----------

  lemma {:induction false} Joined(s: State, a: seq<Step>, b: seq<Step>)
    ensures After(s, a + b) == After(After(s, a), b)
    decreases |a|
  {
    if a == [] {
      assert a + b == b;
    } else {
      assert (a + b)[1..] == a[1..] + b;
      Joined(Next(s, a[0]), a[1..], b);
    }
  }

  lemma One(s: State, a: Step)
    ensures After(s, [a]) == Next(s, a)
  {
    OneMore(s, [], a);
    assert [] + [a] == [a];
  }

  lemma Two(s: State, a: Step, b: Step)
    ensures After(s, [a, b]) == Next(Next(s, a), b)
  {
    One(s, a);
    OneMore(s, [a], b);
    assert [a] + [b] == [a, b];
  }

  // Worker w runs job j, whose calls so far are c, and which is no observation.
  ghost predicate Working(s: State, w: nat, j: nat, c: nat) {
    Inv(s) && Live(s, j, w) && CallsOf(s, j) == c && s.jobs[j].consumed + c <= TURN_CALLS
    && PurposeOf(s.journal, s.jobs[j].message, |s.journal|) != Some(Observe)
  }

  // What the worker leaves alone.
  ghost predicate Elsewhere(s: State, t: State, w: nat, j: nat) {
    && t.jobs == s.jobs && t.held == s.held
    && (forall v: nat | v != w :: At(t, v) == At(s, v))
    && (forall k: nat | k != j :: CallsOf(t, k) == CallsOf(s, k))
    && (forall k: nat | k != j :: Asked(t.invoked, k) == Asked(s.invoked, k))
    && (forall i | 0 <= i < |t.journal| && t.journal[i].Decided? :: i < |s.journal| && s.journal[i].Decided?)
    && (forall m: nat :: PurposeOf(t.journal, m, |t.journal|) == Some(Observe) ==> PurposeOf(s.journal, m, |s.journal|) == Some(Observe))
    && s.journal <= t.journal
  }

  lemma StillElsewhere(s: State, t: State, u: State, w: nat, j: nat)
    requires Elsewhere(s, t, w, j) && Elsewhere(t, u, w, j)
    ensures Elsewhere(s, u, w, j)
  {
    forall v: nat | v != w ensures At(u, v) == At(s, v) {
      assert At(t, v) == At(s, v);
    }
    forall k: nat | k != j ensures CallsOf(u, k) == CallsOf(s, k) && Asked(u.invoked, k) == Asked(s.invoked, k) {
      assert CallsOf(t, k) == CallsOf(s, k) && Asked(t.invoked, k) == Asked(s.invoked, k);
    }
    forall m: nat | PurposeOf(u.journal, m, |u.journal|) == Some(Observe) ensures PurposeOf(s.journal, m, |s.journal|) == Some(Observe) {
      assert PurposeOf(t.journal, m, |t.journal|) == Some(Observe);
    }
  }

  function CallSteps(w: nat): seq<Step> {
    [CountCalls(w), MakeCall(w, "x")]
  }

  lemma CallsOnce(s: State, w: nat, j: nat, c: nat)
    requires Working(s, w, j, c) && At(s, w) == Looping(j) && s.jobs[j].consumed + c < TURN_CALLS
    ensures var t := After(s, CallSteps(w));
      Working(t, w, j, c + 1) && At(t, w) == Called(j, c) && Elsewhere(s, t, w, j) && Asked(t.invoked, j) == Asked(s.invoked, j) + 1
  {
    var mid := Next(s, CountCalls(w));
    Two(s, CountCalls(w), MakeCall(w, "x"));
    StepKeeps(s, CountCalls(w));
    StepKeeps(mid, MakeCall(w, "x"));
    CallStep(mid, w, j, c);
  }

  lemma CallStep(s: State, w: nat, j: nat, c: nat)
    requires Inv(s) && At(s, w) == Counted(j, c) && CallsOf(s, j) == c
    ensures var t := Next(s, MakeCall(w, "x"));
      t.journal == s.journal + [ModelCall(j, c, "x")] && At(t, w) == Called(j, c) && CallsOf(t, j) == c + 1
      && Elsewhere(s, t, w, j) && Asked(t.invoked, j) == Asked(s.invoked, j) + 1
  {
    var t := Next(s, MakeCall(w, "x"));
    CallMade(s, w, j, c);
    CallAppended(s, j, c, "x");
    CallAsks(s, t, j, c);
    CallClassifiesNothing(s, t, ModelCall(j, c, "x"));
  }

  lemma CallMade(s: State, w: nat, j: nat, c: nat)
    requires Inv(s) && At(s, w) == Counted(j, c) && CallsOf(s, j) == c
    ensures var t := Next(s, MakeCall(w, "x"));
      t.journal == s.journal + [ModelCall(j, c, "x")] && t.invoked == s.invoked + [Invocation(j, c, false)]
      && At(t, w) == Called(j, c) && t.jobs == s.jobs && t.held == s.held && forall v: nat | v != w :: At(t, v) == At(s, v)
  {
    AttemptsMade(s.journal, j, c, |s.journal|);
  }

  lemma CallAsks(s: State, t: State, j: nat, c: nat)
    requires t.invoked == s.invoked + [Invocation(j, c, false)]
    ensures forall k: nat :: Asked(t.invoked, k) == Asked(s.invoked, k) + if k == j then 1 else 0
  {
    forall k: nat ensures Asked(t.invoked, k) == Asked(s.invoked, k) + if k == j then 1 else 0 {
      AskedOneMore(s.invoked, Invocation(j, c, false), k);
    }
  }

  lemma CallClassifiesNothing(s: State, t: State, e: Event)
    requires t.journal == s.journal + [e] && e.ModelCall?
    ensures forall m: nat :: PurposeOf(t.journal, m, |t.journal|) == PurposeOf(s.journal, m, |s.journal|)
  {
    forall m: nat ensures PurposeOf(t.journal, m, |t.journal|) == PurposeOf(s.journal, m, |s.journal|) {
      PurposePrefix(s.journal, t.journal, m, |s.journal|);
    }
  }

  function JudgeSteps(w: nat): seq<Step> {
    [CheckReply(w, Accepted(ADVANCE)), TakeReply(w)]
  }

  lemma Judges(s: State, w: nat, j: nat, c: nat)
    requires Working(s, w, j, c + 1) && At(s, w) == Called(j, c)
    ensures var t := After(s, JudgeSteps(w));
      Working(t, w, j, c + 1) && At(t, w) == Judged(j, c, ADVANCE) && Elsewhere(s, t, w, j) && t.invoked == s.invoked
  {
    var mid := Next(s, CheckReply(w, Accepted(ADVANCE)));
    Two(s, CheckReply(w, Accepted(ADVANCE)), TakeReply(w));
    ChecksOut(s, w, j, c);
    StepKeeps(mid, TakeReply(w));
    JudgeStep(mid, w, j, c);
    StillElsewhere(s, mid, Next(mid, TakeReply(w)), w, j);
  }

  lemma ChecksOut(s: State, w: nat, j: nat, c: nat)
    requires Working(s, w, j, c + 1) && At(s, w) == Called(j, c)
    ensures var t := Next(s, CheckReply(w, Accepted(ADVANCE)));
      Working(t, w, j, c + 1) && At(t, w) == Vetted(j, c, Accepted(ADVANCE)) && Elsewhere(s, t, w, j) && t.invoked == s.invoked
  {
    StepKeeps(s, CheckReply(w, Accepted(ADVANCE)));
  }

  lemma JudgeStep(s: State, w: nat, j: nat, c: nat)
    requires Working(s, w, j, c + 1) && At(s, w) == Vetted(j, c, Accepted(ADVANCE))
    ensures var t := Next(s, TakeReply(w));
      CallsOf(t, j) == c + 1 && At(t, w) == Judged(j, c, ADVANCE) && Elsewhere(s, t, w, j) && t.invoked == s.invoked
      && PurposeOf(t.journal, t.jobs[j].message, |t.journal|) == Some(Command)
  {
    var t := Next(s, TakeReply(w));
    ClassifyKeeps(s.journal, s.jobs[j].message, Command);
    CallsSame(s, t);
    assert CallsOf(t, j) == CallsOf(s, j);
    forall k: nat ensures CallsOf(t, k) == CallsOf(s, k) {
    }
    CommandsOnly(s, t, s.jobs[j].message);
  }

  // Classifying a command makes no observation.
  lemma CommandsOnly(s: State, t: State, message: nat)
    requires t.journal == s.journal || t.journal == s.journal + [Classified(message, Command)]
    ensures forall m: nat :: PurposeOf(t.journal, m, |t.journal|) == Some(Observe) ==> PurposeOf(s.journal, m, |s.journal|) == Some(Observe)
  {
    forall m: nat | PurposeOf(t.journal, m, |t.journal|) == Some(Observe) ensures PurposeOf(s.journal, m, |s.journal|) == Some(Observe) {
      PurposePrefix(s.journal, t.journal, m, |s.journal|);
    }
  }

  lemma LoopsOn(s: State, w: nat, j: nat, c: nat)
    requires Working(s, w, j, c + 1) && At(s, w) == Judged(j, c, ADVANCE) && s.jobs[j].consumed + c + 1 < TURN_CALLS
    ensures var t := After(s, [Settle(w, MOVED_ON)]);
      Working(t, w, j, c + 1) && At(t, w) == Looping(j) && Elsewhere(s, t, w, j) && t.invoked == s.invoked
  {
    One(s, Settle(w, MOVED_ON));
    StepKeeps(s, Settle(w, MOVED_ON));
  }

  function RoundSteps(w: nat): seq<Step> {
    JudgeSteps(w) + [Settle(w, MOVED_ON)] + CallSteps(w)
  }

  // From one call to the next.
  lemma Round(s: State, w: nat, j: nat, c: nat)
    requires Working(s, w, j, c + 1) && At(s, w) == Called(j, c) && s.jobs[j].consumed + c + 1 < TURN_CALLS
    ensures var t := After(s, RoundSteps(w));
      Working(t, w, j, c + 2) && At(t, w) == Called(j, c + 1) && Elsewhere(s, t, w, j) && Asked(t.invoked, j) == Asked(s.invoked, j) + 1
  {
    var u := After(s, JudgeSteps(w));
    var v := After(u, [Settle(w, MOVED_ON)]);
    Judges(s, w, j, c);
    LoopsOn(u, w, j, c);
    CallsOnce(v, w, j, c + 1);
    StillElsewhere(s, u, v, w, j);
    StillElsewhere(s, v, After(v, CallSteps(w)), w, j);
    Joined(s, JudgeSteps(w), [Settle(w, MOVED_ON)]);
    Joined(s, JudgeSteps(w) + [Settle(w, MOVED_ON)], CallSteps(w));
  }

  // ---------- Four calls and five requests ----------

  function LeasedBy(w: nat, attempts: nat): seq<Job> {
    [NewJob(0).(state := JobState.Running, owner := Some(w), attempts := attempts)]
  }

  const LAPSED := State([], [NewJob(0).(attempts := 1)], map[0 := Counted(0, 0)], [], map[])

  // Worker 0 has counted its call when its lease ends, and worker 1 counts the same call.
  const BOTH_COUNTED := State([], LeasedBy(1, 2), map[0 := Counted(0, 0), 1 := Counted(0, 0)], [], map[])

  const BEGUN := State([], LeasedBy(0, 1), map[0 := Looping(0)], [], map[])

  lemma Begins()
    ensures After(EMPTY, [NewTurn(0), Lease(0, 0)]) == BEGUN && Working(BEGUN, 0, 0, 0)
  {
    Two(EMPTY, NewTurn(0), Lease(0, 0));
    assert Next(EMPTY, NewTurn(0)).jobs == [NewJob(0)];
    ReachableInv([NewTurn(0), Lease(0, 0)]);
  }

  const COUNTED := State([], LeasedBy(0, 1), map[0 := Counted(0, 0)], [], map[9 := Held(0, LeasedBy(0, 1)[0])])

  lemma Counts()
    ensures After(BEGUN, [CountCalls(0), ReadRow(9, 0)]) == COUNTED && Next(COUNTED, Expire(9, false)) == LAPSED
  {
    Two(BEGUN, CountCalls(0), ReadRow(9, 0));
    assert COUNTED.held - {9} == map[];
    assert Next(COUNTED, Expire(9, false)).jobs == LAPSED.jobs;
  }

  lemma CountsFirst()
    ensures After(EMPTY, [NewTurn(0), Lease(0, 0)] + [CountCalls(0), ReadRow(9, 0)] + [Expire(9, false)]) == LAPSED
  {
    Joined(EMPTY, [NewTurn(0), Lease(0, 0)], [CountCalls(0), ReadRow(9, 0)]);
    Joined(EMPTY, [NewTurn(0), Lease(0, 0)] + [CountCalls(0), ReadRow(9, 0)], [Expire(9, false)]);
    Begins();
    Counts();
    One(COUNTED, Expire(9, false));
  }

  lemma BothCount()
    ensures After(LAPSED, [Lease(1, 0), CountCalls(1)]) == BOTH_COUNTED
  {
    Two(LAPSED, Lease(1, 0), CountCalls(1));
    assert Next(LAPSED, Lease(1, 0)).jobs == LeasedBy(1, 2);
  }

  // One call is journaled, and the provider asked for it by both.
  lemma BothCall()
    ensures var t := After(BOTH_COUNTED, [MakeCall(1, "x"), MakeCall(0, "x")]);
      t.journal == [ModelCall(0, 0, "x")] && t.jobs == LeasedBy(1, 2) && At(t, 1) == Called(0, 0) && Asked(t.invoked, 0) == 2
  {
    Two(BOTH_COUNTED, MakeCall(1, "x"), MakeCall(0, "x"));
    var s := Next(BOTH_COUNTED, MakeCall(1, "x"));
    assert s.journal == [ModelCall(0, 0, "x")] && s.invoked == [Invocation(0, 0, false)];
    RepeatStep(s);
  }

  lemma RepeatStep(s: State)
    requires s == State([ModelCall(0, 0, "x")], LeasedBy(1, 2), map[0 := Counted(0, 0), 1 := Called(0, 0)], [Invocation(0, 0, false)], map[])
    ensures var t := Next(s, MakeCall(0, "x"));
      t.journal == s.journal && t.jobs == s.jobs && At(t, 1) == Called(0, 0) && Asked(t.invoked, 0) == 2
  {
    assert s.journal[0] == ModelCall(0, 0, "x");
    assert CallAt(s.journal, 0, 0, 1) == Some(0);
    AskedOneMore([Invocation(0, 0, false)], Invocation(0, 0, true), 0);
    AskedOneMore([], Invocation(0, 0, false), 0);
    assert [] + [Invocation(0, 0, false)] == [Invocation(0, 0, false)];
  }

  const REPEATS: seq<Step> :=
    [NewTurn(0), Lease(0, 0)] + [CountCalls(0), ReadRow(9, 0)] + [Expire(9, false)] + [Lease(1, 0), CountCalls(1)] + [MakeCall(1, "x"), MakeCall(0, "x")]

  lemma RepeatsCall()
    ensures var t := After(EMPTY, REPEATS); Working(t, 1, 0, 1) && At(t, 1) == Called(0, 0) && Asked(t.invoked, 0) == 2 && t.jobs == LeasedBy(1, 2)
  {
    var a := [NewTurn(0), Lease(0, 0)] + [CountCalls(0), ReadRow(9, 0)] + [Expire(9, false)];
    CountsFirst();
    Joined(EMPTY, a, [Lease(1, 0), CountCalls(1)]);
    BothCount();
    Joined(EMPTY, a + [Lease(1, 0), CountCalls(1)], [MakeCall(1, "x"), MakeCall(0, "x")]);
    BothCall();
    ReachableInv(REPEATS);
    var t := After(EMPTY, REPEATS);
    assert t.journal[0] == ModelCall(0, 0, "x");
    assert Calls(t.journal, 0, 1) == 1 && PurposeOf(t.journal, 0, 1) == None;
  }

  // Four calls are journaled, and the provider is asked five times.
  lemma FiveRequests() returns (steps: seq<Step>)
    ensures var s := After(EMPTY, steps); |s.jobs| == 1 && CallsOf(s, 0) == TURN_CALLS && Asked(s.invoked, 0) == 5
  {
    RepeatsCall();
    steps := REPEATS;
    for k := 0 to 3
      invariant Working(After(EMPTY, steps), 1, 0, k + 1) && At(After(EMPTY, steps), 1) == Called(0, k)
      invariant Asked(After(EMPTY, steps).invoked, 0) == k + 2 && |After(EMPTY, steps).jobs| == 1 && After(EMPTY, steps).jobs[0].consumed == 0
    {
      Round(After(EMPTY, steps), 1, 0, k);
      Joined(EMPTY, steps, RoundSteps(1));
      steps := steps + RoundSteps(1);
    }
  }

  // ---------- A decided job, revived ----------

  lemma TwoCalls()
    ensures var s := After(BEGUN, CallSteps(0) + RoundSteps(0)); Working(s, 0, 0, 2) && At(s, 0) == Called(0, 1) && Elsewhere(BEGUN, s, 0, 0)
  {
    Begins();
    var a := After(BEGUN, CallSteps(0));
    CallsOnce(BEGUN, 0, 0, 0);
    Round(a, 0, 0, 0);
    StillElsewhere(BEGUN, a, After(a, RoundSteps(0)), 0, 0);
    Joined(BEGUN, CallSteps(0), RoundSteps(0));
  }

  lemma TwoCallsJudged()
    ensures var s := After(BEGUN, CallSteps(0) + RoundSteps(0) + JudgeSteps(0));
      Working(s, 0, 0, 2) && At(s, 0) == Judged(0, 1, ADVANCE) && Elsewhere(BEGUN, s, 0, 0)
  {
    TwoCalls();
    var b := After(BEGUN, CallSteps(0) + RoundSteps(0));
    Judges(b, 0, 0, 1);
    StillElsewhere(BEGUN, b, After(b, JudgeSteps(0)), 0, 0);
    Joined(BEGUN, CallSteps(0) + RoundSteps(0), JudgeSteps(0));
  }

  // One job of two calls, its second answer judged, and nothing else anywhere.
  ghost predicate Alone(s: State) {
    && Working(s, 0, 0, 2) && At(s, 0) == Judged(0, 1, ADVANCE) && s.jobs == LeasedBy(0, 1) && s.held == map[] && !DecidedBy(s.journal, 0)
    && CallsOf(s, 1) == 0 && forall w: nat | w != 0 :: At(s, w) == Idle
  }

  lemma CallsTwice() returns (steps: seq<Step>)
    ensures Alone(After(EMPTY, steps))
  {
    Begins();
    TwoCallsJudged();
    var s := After(BEGUN, CallSteps(0) + RoundSteps(0) + JudgeSteps(0));
    Joined(EMPTY, [NewTurn(0), Lease(0, 0)], CallSteps(0) + RoundSteps(0) + JudgeSteps(0));
    steps := [NewTurn(0), Lease(0, 0)] + (CallSteps(0) + RoundSteps(0) + JudgeSteps(0));
    assert CallsOf(s, 1) == CallsOf(BEGUN, 1);
    forall w: nat | w != 0 ensures At(s, w) == Idle {
      assert At(s, w) == At(BEGUN, w);
    }
  }

  function DecideSteps(decision: nat): seq<Step> {
    [ReadRow(5, 0), Settle(0, STILL)] + [RefreshDecision(decision), Expire(5, false)]
  }

  function TwoJobs(first: Job, second: Job): seq<Job> {
    [first, second]
  }

  const REVIVED_JOB := NewJob(0).(attempts := 1)
  const AGAIN := Job(0, 2, Some(0), Queued, None, 0)

  const DECIDED_JOB := LeasedBy(0, 1)[0].(state := Succeeded, owner := None)

  // Nobody holds a place, and the turn is no observation.
  ghost predicate Quiet(s: State, mine: nat, next: nat) {
    (forall w: nat :: At(s, w) == Idle) && CallsOf(s, 0) == mine && CallsOf(s, 1) == next && PurposeOf(s.journal, 0, |s.journal|) != Some(Observe)
  }

  // The reaper reads the row, and the job decides.
  lemma Decides(s: State)
    requires Alone(s)
    ensures var u := Next(Next(s, ReadRow(5, 0)), Settle(0, STILL));
      u.journal == s.journal + [Decided(0, 0, "advance")] && u.jobs == [DECIDED_JOB]
      && u.held == map[5 := Held(0, LeasedBy(0, 1)[0])] && u.pcs == s.pcs[0 := Idle]
  {
    assert s.held[5 := Held(0, s.jobs[0])] == map[5 := Held(0, s.jobs[0])];
  }

  lemma DecidesQuietly(s: State, u: State)
    requires Alone(s) && u.journal == s.journal + [Decided(0, 0, "advance")] && u.pcs == s.pcs[0 := Idle]
    ensures Quiet(u, 2, 0)
  {
    CallsSame(s, u);
    assert CallsOf(u, 0) == CallsOf(s, 0) && CallsOf(u, 1) == CallsOf(s, 1);
    PurposePrefix(s.journal, u.journal, 0, |s.journal|);
    forall w: nat ensures At(u, w) == Idle {
      if w != 0 {
        assert At(s, w) == Idle;
      }
    }
  }

  // The job is observed again, and the reaper writes.
  lemma WritesBack(u: State, decision: nat)
    requires u.jobs == [DECIDED_JOB] && u.held == map[5 := Held(0, LeasedBy(0, 1)[0])] && Quiet(u, 2, 0)
    requires decision < |u.journal| && u.journal[decision] == Decided(0, 0, "advance")
    ensures var t := Next(Next(u, RefreshDecision(decision)), Expire(5, false)); t.jobs == TwoJobs(REVIVED_JOB, AGAIN) && Quiet(t, 2, 0)
  {
    var v := Next(u, RefreshDecision(decision));
    assert !Refreshed(u.jobs, 0);
    assert v.jobs == [u.jobs[0], AGAIN] && v.journal == u.journal + [Superseded(decision, 1)] && v.pcs == u.pcs;
    WritesQuietly(u, Next(v, Expire(5, false)), decision);
  }

  lemma WritesQuietly(u: State, t: State, decision: nat)
    requires Quiet(u, 2, 0) && t.journal == u.journal + [Superseded(decision, 1)] && t.pcs == u.pcs
    ensures Quiet(t, 2, 0)
  {
    CallsSame(u, t);
    assert CallsOf(t, 0) == CallsOf(u, 0) && CallsOf(t, 1) == CallsOf(u, 1);
    PurposePrefix(u.journal, t.journal, 0, |u.journal|);
    forall w: nat ensures At(t, w) == Idle {
      assert At(u, w) == Idle;
    }
  }

  lemma DecidesAndRevives(s: State)
    requires Alone(s)
    ensures var t := After(s, DecideSteps(|s.journal|)); t.jobs == TwoJobs(REVIVED_JOB, AGAIN) && Quiet(t, 2, 0)
  {
    Joined(s, [ReadRow(5, 0), Settle(0, STILL)], [RefreshDecision(|s.journal|), Expire(5, false)]);
    Two(s, ReadRow(5, 0), Settle(0, STILL));
    Decides(s);
    var u := After(s, [ReadRow(5, 0), Settle(0, STILL)]);
    DecidesQuietly(s, u);
    Two(u, RefreshDecision(|s.journal|), Expire(5, false));
    WritesBack(u, |s.journal|);
  }

  function LeaseSteps(w: nat, j: nat): seq<Step> {
    [Lease(w, j)] + (CallSteps(w) + RoundSteps(w))
  }

  lemma TwoCallsOf(s: State, w: nat, j: nat, c: nat)
    requires Working(s, w, j, c) && At(s, w) == Looping(j) && s.jobs[j].consumed + c + 2 <= TURN_CALLS
    ensures var t := After(s, CallSteps(w) + RoundSteps(w)); Working(t, w, j, c + 2) && Elsewhere(s, t, w, j)
  {
    var b := After(s, CallSteps(w));
    CallsOnce(s, w, j, c);
    Round(b, w, j, c);
    StillElsewhere(s, b, After(b, RoundSteps(w)), w, j);
    Joined(s, CallSteps(w), RoundSteps(w));
  }

  // A job is leased, and makes two more calls.
  lemma TwoMore(s: State, w: nat, j: nat, c: nat)
    requires Inv(s) && j < |s.jobs| && s.jobs[j].state == Queued && s.jobs[j].message == 0 && At(s, w) == Idle
    requires CallsOf(s, j) == c && s.jobs[j].consumed + c + 2 <= TURN_CALLS && PurposeOf(s.journal, 0, |s.journal|) != Some(Observe)
    ensures var a := Next(s, Lease(w, j));
      var t := After(s, LeaseSteps(w, j));
      CallsOf(t, j) == c + 2 && t.jobs == a.jobs && Elsewhere(a, t, w, j)
  {
    One(s, Lease(w, j));
    StepKeeps(s, Lease(w, j));
    TwoCallsOf(Next(s, Lease(w, j)), w, j, c);
    Joined(s, [Lease(w, j)], CallSteps(w) + RoundSteps(w));
  }

  lemma TwoMoreOfNext(s: State)
    requires Inv(s) && s.jobs == TwoJobs(REVIVED_JOB, AGAIN) && Quiet(s, 2, 0)
    ensures var t := After(s, LeaseSteps(1, 1));
      |t.jobs| == 2 && t.jobs[0] == REVIVED_JOB && t.jobs[1].refreshed == Some(0) && CallsOf(t, 0) == 2 && CallsOf(t, 1) == 2
      && At(t, 2) == Idle && PurposeOf(t.journal, 0, |t.journal|) != Some(Observe)
  {
    TwoMore(s, 1, 1, 0);
    var a, t := Next(s, Lease(1, 1)), After(s, LeaseSteps(1, 1));
    assert At(a, 2) == At(s, 2) && CallsOf(a, 0) == CallsOf(s, 0);
    assert At(t, 2) == At(a, 2) && CallsOf(t, 0) == CallsOf(a, 0);
  }

  lemma TwoMoreOfRevived(s: State)
    requires Inv(s) && |s.jobs| == 2 && s.jobs[0] == REVIVED_JOB && s.jobs[1].refreshed == Some(0) && CallsOf(s, 0) == 2 && CallsOf(s, 1) == 2
    requires At(s, 2) == Idle && PurposeOf(s.journal, 0, |s.journal|) != Some(Observe)
    ensures var t := After(s, LeaseSteps(2, 0)); |t.jobs| == 2 && t.jobs[1].refreshed == Some(0) && CallsOf(t, 0) == 4 && CallsOf(t, 1) == 2
  {
    TwoMore(s, 2, 0, 2);
    var a, t := Next(s, Lease(2, 0)), After(s, LeaseSteps(2, 0));
    assert CallsOf(a, 1) == CallsOf(s, 1) && CallsOf(t, 1) == CallsOf(a, 1);
  }

  // A decided job is queued again by a reaper that read its row before it decided, while
  // the job that observes its turn again goes on: one turn journals six calls.
  lemma SixCalls() returns (steps: seq<Step>)
    ensures var s := After(EMPTY, steps);
      |s.jobs| == 2 && s.jobs[1].refreshed == Some(0) && CallsOf(s, 0) == 4 && CallsOf(s, 1) == 2
  {
    steps := CallsTwice();
    var s := After(EMPTY, steps);
    DecidesAndRevives(s);
    Joined(EMPTY, steps, DecideSteps(|s.journal|));
    steps := steps + DecideSteps(|s.journal|);
    ReachableInv(steps);
    TwoMoreOfNext(After(EMPTY, steps));
    Joined(EMPTY, steps, LeaseSteps(1, 1));
    steps := steps + LeaseSteps(1, 1);
    ReachableInv(steps);
    TwoMoreOfRevived(After(EMPTY, steps));
    Joined(EMPTY, steps, LeaseSteps(2, 0));
    steps := steps + LeaseSteps(2, 0);
  }
}
