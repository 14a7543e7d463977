// How often the provider is asked, as against how many calls are journaled: a worker that
// finds its call journaled already makes it again.
module TurnReplays {
  import opened Prelude
  import opened Jobs
  import opened TurnProtocol
  import opened TurnRuntime
  import opened TurnProofs

  // How often the provider was asked for job j, and how often for a call journaled before.
  function Asked(invoked: seq<Invocation>, j: nat): nat {
    if invoked == [] then 0
    else Asked(invoked[..|invoked| - 1], j) + if invoked[|invoked| - 1].job == j then 1 else 0
  }

  function Repeated(invoked: seq<Invocation>, j: nat): nat {
    if invoked == [] then 0
    else Repeated(invoked[..|invoked| - 1], j) + if invoked[|invoked| - 1].job == j && invoked[|invoked| - 1].again then 1 else 0
  }

  lemma AskedOneMore(invoked: seq<Invocation>, i: Invocation, j: nat)
    ensures Asked(invoked + [i], j) == Asked(invoked, j) + if i.job == j then 1 else 0
    ensures Repeated(invoked + [i], j) == Repeated(invoked, j) + if i.job == j && i.again then 1 else 0
  {
    assert (invoked + [i])[..|invoked|] == invoked;
  }

  // ---------- The invariant ----------

  // Worker w has counted a call of job j, and not made it.
  predicate Pending(s: State, w: nat, j: nat) {
    At(s, w).Counted? && At(s, w).job == j
  }

  predicate IsLate(s: State, w: nat, j: nat) {
    Pending(s, w, j) && At(s, w).attempt < CallsOf(s, j)
  }

  predicate IsStale(s: State, w: nat, j: nat) {
    Pending(s, w, j) && At(s, w).attempt >= CallsOf(s, j) && !Live(s, j, w)
  }

  // Those whose counted call was journaled meanwhile.
  function Late(s: State, j: nat): (r: set<nat>)
    ensures forall w :: w in r <==> IsLate(s, w, j)
  {
    set w | w in s.pcs && IsLate(s, w, j) :: w
  }

  // Those that have lost the job, and whose counted call is not journaled.
  function Stale(s: State, j: nat): (r: set<nat>)
    ensures forall w :: w in r <==> IsStale(s, w, j)
  {
    set w | w in s.pcs && IsStale(s, w, j) :: w
  }

  predicate Runs(s: State, j: nat) {
    j < |s.jobs| && s.jobs[j].state == Running
  }

  function Leases(s: State, j: nat): nat {
    if j < |s.jobs| then s.jobs[j].attempts else 0
  }

  // What has been made again and what may still be: a late call, and all the stale ones
  // but the one that is journaled first, unless the job runs and counts it before them.
  predicate JobLine(s: State, j: nat) {
    var due := Repeated(s.invoked, j) + |Late(s, j)| + |Stale(s, j)|;
    Asked(s.invoked, j) == CallsOf(s, j) + Repeated(s.invoked, j) && (Repeated(s.invoked, j) > 0 ==> CallsOf(s, j) > 0)
    && (if Runs(s, j) then due < Leases(s, j)
        else if Leases(s, j) == 0 then due == 0
        else due <= Leases(s, j) && (Stale(s, j) == {} ==> due < Leases(s, j)))
  }

  ghost predicate Lines(s: State) {
    forall j: nat :: JobLine(s, j)
  }

  lemma {:induction false} SubsetSize(a: set<nat>, b: set<nat>)
    requires a <= b
    ensures |a| <= |b|
    decreases a
  {
    if a != {} {
      var x :| x in a;
      SubsetSize(a - {x}, b - {x});
    }
  }

  lemma OneMoreSize(a: set<nat>, b: set<nat>, x: nat)
    requires a <= b + {x}
    ensures |a| <= |b| + 1
  {
    SubsetSize(a, b + {x});
  }

  // ---------- Steps that concern job j in nothing but its state ----------

  predicate JobQuiet(s: State, t: State, j: nat) {
    && CallsOf(t, j) == CallsOf(s, j) && Asked(t.invoked, j) == Asked(s.invoked, j) && Repeated(t.invoked, j) == Repeated(s.invoked, j)
    && Leases(t, j) == Leases(s, j)
    && (Runs(t, j) ==> Runs(s, j) && t.jobs[j].owner == s.jobs[j].owner)
  }

  ghost predicate Quieter(s: State, t: State, j: nat) {
    JobQuiet(s, t, j) && forall w: nat :: Pending(t, w, j) ==> At(t, w) == At(s, w)
  }

  // Only the worker that ran the job can be stale anew.
  lemma QuietSets(s: State, t: State, j: nat)
    requires Quieter(s, t, j)
    ensures Late(t, j) <= Late(s, j)
    ensures Runs(t, j) || !Runs(s, j) ==> Stale(t, j) <= Stale(s, j)
    ensures Runs(s, j) && s.jobs[j].owner.Some? ==> Stale(t, j) <= Stale(s, j) + {s.jobs[j].owner.value}
    ensures Runs(s, j) && s.jobs[j].owner.None? ==> Stale(t, j) <= Stale(s, j)
  {
    forall w | w in Late(t, j) ensures w in Late(s, j) {
      assert IsLate(t, w, j) && Pending(t, w, j);
    }
    forall w | w in Stale(t, j) && !Live(s, j, w) ensures w in Stale(s, j) {
      assert IsStale(t, w, j) && Pending(t, w, j);
    }
    forall w | w in Stale(t, j) ensures w in Stale(s, j) || Live(s, j, w) {
    }
    forall w | w in Stale(t, j) && (Runs(t, j) || !Runs(s, j)) ensures w in Stale(s, j) {
      assert IsStale(t, w, j);
    }
  }

  lemma QuietLine(s: State, t: State, j: nat)
    requires JobLine(s, j) && Quieter(s, t, j)
    ensures JobLine(t, j)
  {
    QuietSets(s, t, j);
    SubsetSize(Late(t, j), Late(s, j));
    if Runs(s, j) && !Runs(t, j) && s.jobs[j].owner.Some? {
      OneMoreSize(Stale(t, j), Stale(s, j), s.jobs[j].owner.value);
      if Stale(t, j) == {} {
        assert |Stale(t, j)| == 0;
      }
    } else {
      SubsetSize(Stale(t, j), Stale(s, j));
      if !Runs(t, j) && Stale(t, j) == {} && Stale(s, j) != {} {
        assert |Stale(s, j)| >= 1;
      }
    }
  }

  predicate Counts(step: Step) {
    step.Lease? || step.CountCalls? || step.MakeCall?
  }

  // What every other step does: it moves at most its worker, never to a count.
  predicate NoCount(s: State, t: State, w: nat) {
    t.invoked == s.invoked && (t.pcs == s.pcs || (t.pcs == s.pcs[w := At(t, w)] && !At(t, w).Counted?))
  }

  predicate StartsNothing(s: State, t: State, j: nat) {
    Leases(t, j) == Leases(s, j) && (Runs(t, j) ==> Runs(s, j) && t.jobs[j].owner == s.jobs[j].owner)
  }

  lemma QuietFor(s: State, t: State, w: nat, j: nat)
    requires SameCalls(s, t) && NoCount(s, t, w) && StartsNothing(s, t, j)
    ensures Quieter(s, t, j)
  {
    assert CallsOf(t, j) == CallsOf(s, j);
  }

  function WorkerOf(step: Step): nat {
    if OfWorker(step) then step.worker else 0
  }

  lemma TakeQuiet(s: State, w: nat, j: nat)
    ensures var t := Next(s, TakeReply(w)); NoCount(s, t, w) && StartsNothing(s, t, j)
  {
  }

  lemma SettleQuiet(s: State, w: nat, facts: Facts, j: nat)
    ensures var t := Next(s, Settle(w, facts)); NoCount(s, t, w) && StartsNothing(s, t, j)
  {
  }

  lemma WorkerQuiet(s: State, step: Step, j: nat)
    requires OfWorker(step) && !Counts(step) && !step.TakeReply? && !step.Settle?
    ensures var t := Next(s, step); NoCount(s, t, step.worker) && StartsNothing(s, t, j)
  {
  }

  lemma WorldQuiet(s: State, step: Step, j: nat)
    requires !OfWorker(step)
    ensures var t := Next(s, step); NoCount(s, t, 0) && StartsNothing(s, t, j)
  {
  }

  lemma QuietEffect(s: State, step: Step, j: nat)
    requires !Counts(step)
    ensures Quieter(s, Next(s, step), j)
  {
    var t := Next(s, step);
    JobsStep(s, step);
    CallsSame(s, t);
    match step
    case TakeReply(w) => TakeQuiet(s, w, j);
    case Settle(w, facts) => SettleQuiet(s, w, facts, j);
    case _ =>
      if OfWorker(step) {
        WorkerQuiet(s, step, j);
      } else {
        WorldQuiet(s, step, j);
      }
    QuietFor(s, t, WorkerOf(step), j);
  }

  // ---------- Steps that count or call ----------

  lemma FailingQuiet(s: State, w: nat, k: nat, j: nat)
    ensures Quieter(s, Failing(s, w, k), j)
  {
    QuietFor(s, Failing(s, w, k), w, j);
  }

  lemma LeaseLine(s: State, w: nat, k: nat, j: nat)
    requires JobLine(s, j)
    ensures JobLine(Next(s, Lease(w, k)), j)
  {
    var t := Next(s, Lease(w, k));
    if t != s && k == j {
      assert CallsOf(t, j) == CallsOf(s, j);
      forall v | v in Late(t, j) ensures v in Late(s, j) {
        assert IsLate(t, v, j);
      }
      forall v | v in Stale(t, j) ensures v in Stale(s, j) {
        assert IsStale(t, v, j);
      }
      SubsetSize(Late(t, j), Late(s, j));
      SubsetSize(Stale(t, j), Stale(s, j));
    } else if t != s {
      assert CallsOf(t, j) == CallsOf(s, j);
      QuietLine(s, t, j);
    }
  }

  // The one that counts is the one that runs the job, and counts afresh.
  lemma CountedLine(s: State, w: nat, k: nat, j: nat)
    requires JobLine(s, j) && At(s, w) == Looping(k) && Live(s, k, w)
    ensures JobLine(Moved(s, w, Counted(k, CallsOf(s, k))), j)
  {
    var t := Moved(s, w, Counted(k, CallsOf(s, k)));
    assert CallsOf(t, j) == CallsOf(s, j);
    assert Late(t, j) == Late(s, j) by {
      forall v ensures v in Late(t, j) <==> v in Late(s, j) {
        assert IsLate(t, v, j) <==> IsLate(s, v, j);
      }
    }
    assert Stale(t, j) == Stale(s, j) by {
      forall v ensures v in Stale(t, j) <==> v in Stale(s, j) {
        assert IsStale(t, v, j) <==> IsStale(s, v, j);
      }
    }
  }

  lemma CountLine(s: State, w: nat, j: nat)
    requires JobLine(s, j)
    ensures JobLine(Next(s, CountCalls(w)), j)
  {
    match At(s, w)
    case Looping(k) =>
      if !Live(s, k, w) || CallsOf(s, k) >= MaxCalls(s.jobs[k]) {
        FailingQuiet(s, w, k, j);
        QuietLine(s, Failing(s, w, k), j);
      } else {
        CountedLine(s, w, k, j);
      }
    case _ =>
  }

  // What one call does to the counts, for the job it is of and for every other.
  lemma CallCounts(s: State, w: nat, input: string, k: nat)
    requires Inv(s) && At(s, w).Counted? && At(Next(s, MakeCall(w, input)), w).Called?
    ensures var t := Next(s, MakeCall(w, input));
      var (j, attempt) := (At(s, w).job, At(s, w).attempt);
      var late := attempt < CallsOf(s, j);
      t.jobs == s.jobs && t.pcs == s.pcs[w := Called(j, attempt)]
      && CallsOf(t, k) == CallsOf(s, k) + (if k == j && !late then 1 else 0)
      && Asked(t.invoked, k) == Asked(s.invoked, k) + (if k == j then 1 else 0)
      && Repeated(t.invoked, k) == Repeated(s.invoked, k) + (if k == j && late then 1 else 0)
  {
    var j, attempt := At(s, w).job, At(s, w).attempt;
    AttemptsMade(s.journal, j, attempt, |s.journal|);
    assert PcOk(s, w, s.pcs[w]);
    AskedOneMore(s.invoked, Invocation(j, attempt, attempt < CallsOf(s, j)), k);
    if attempt == CallsOf(s, j) {
      CallAppended(s, j, attempt, input);
    }
  }

  // A late call is made again.
  lemma RepeatLine(s: State, w: nat, input: string, j: nat)
    requires Inv(s) && JobLine(s, j) && IsLate(s, w, j) && At(Next(s, MakeCall(w, input)), w).Called?
    ensures JobLine(Next(s, MakeCall(w, input)), j)
  {
    var t := Next(s, MakeCall(w, input));
    CallCounts(s, w, input, j);
    assert Late(t, j) == Late(s, j) - {w} by {
      forall v ensures v in Late(t, j) <==> v in Late(s, j) && v != w {
        assert IsLate(t, v, j) <==> IsLate(s, v, j) && v != w;
      }
    }
    assert Stale(t, j) == Stale(s, j) by {
      forall v ensures v in Stale(t, j) <==> v in Stale(s, j) {
        assert IsStale(t, v, j) <==> IsStale(s, v, j);
      }
    }
  }

  // A call is journaled: whoever else has counted it is late, and nobody is stale.
  lemma NewCallSets(s: State, w: nat, input: string, j: nat)
    requires Inv(s) && Pending(s, w, j) && !IsLate(s, w, j) && At(Next(s, MakeCall(w, input)), w).Called?
    ensures var t := Next(s, MakeCall(w, input));
      Stale(t, j) == {}
      && forall v | v in Late(t, j) :: v != w && (v in Late(s, j) || v in Stale(s, j) || Live(s, j, v))
  {
    var t := Next(s, MakeCall(w, input));
    CallCounts(s, w, input, j);
    forall v ensures v !in Stale(t, j) {
      if v in s.pcs {
        assert PcOk(s, v, s.pcs[v]);
      }
      assert !IsStale(t, v, j);
    }
    forall v | v in Late(t, j) ensures v != w && (v in Late(s, j) || v in Stale(s, j) || Live(s, j, v)) {
      assert IsLate(t, v, j);
      assert IsLate(s, v, j) || IsStale(s, v, j) || Live(s, j, v);
    }
  }

  // At most as many are late as were late or stale, if the job's own worker calls.
  lemma LiveCallSizes(s: State, w: nat, input: string, j: nat)
    requires Inv(s) && Pending(s, w, j) && !IsLate(s, w, j) && At(Next(s, MakeCall(w, input)), w).Called? && Live(s, j, w)
    ensures |Late(Next(s, MakeCall(w, input)), j)| <= |Late(s, j)| + |Stale(s, j)|
  {
    NewCallSets(s, w, input, j);
    SubsetSize(Late(Next(s, MakeCall(w, input)), j), Late(s, j) + Stale(s, j));
  }

  // If another does, it is stale no more, and the job's own worker may be late.
  lemma StaleCallSizes(s: State, w: nat, input: string, j: nat)
    requires Inv(s) && Pending(s, w, j) && !IsLate(s, w, j) && At(Next(s, MakeCall(w, input)), w).Called? && !Live(s, j, w)
    ensures Stale(s, j) != {}
    ensures |Late(Next(s, MakeCall(w, input)), j)| + 1 <= |Late(s, j)| + |Stale(s, j)| + if Runs(s, j) then 1 else 0
  {
    var late := Late(Next(s, MakeCall(w, input)), j);
    NewCallSets(s, w, input, j);
    assert IsStale(s, w, j);
    var others := Late(s, j) + (Stale(s, j) - {w});
    if Runs(s, j) && s.jobs[j].owner.Some? {
      OneMoreSize(late, others, s.jobs[j].owner.value);
    } else {
      SubsetSize(late, others);
    }
  }

  lemma NewCallLine(s: State, w: nat, input: string, j: nat)
    requires Inv(s) && JobLine(s, j) && Pending(s, w, j) && !IsLate(s, w, j) && At(Next(s, MakeCall(w, input)), w).Called?
    ensures JobLine(Next(s, MakeCall(w, input)), j)
  {
    CallCounts(s, w, input, j);
    NewCallSets(s, w, input, j);
    assert PcOk(s, w, s.pcs[w]);
    if Live(s, j, w) {
      LiveCallSizes(s, w, input, j);
    } else {
      StaleCallSizes(s, w, input, j);
    }
  }

  lemma CallLine(s: State, w: nat, input: string, j: nat)
    requires Inv(s) && JobLine(s, j)
    ensures JobLine(Next(s, MakeCall(w, input)), j)
  {
    var t := Next(s, MakeCall(w, input));
    if At(s, w).Counted? && At(t, w).Called? {
      if At(s, w).job == j && IsLate(s, w, j) {
        RepeatLine(s, w, input, j);
      } else if At(s, w).job == j {
        NewCallLine(s, w, input, j);
      } else {
        CallCounts(s, w, input, j);
        QuietLine(s, t, j);
      }
    } else if At(s, w).Counted? {
      FailingQuiet(s, w, At(s, w).job, j);
      QuietLine(s, t, j);
    }
  }

  // ---------- Whole runs ----------

  lemma StepLine(s: State, step: Step, j: nat)
    requires Inv(s) && JobLine(s, j)
    ensures JobLine(Next(s, step), j)
  {
    match step
    case Lease(w, k) => LeaseLine(s, w, k, j);
    case CountCalls(w) => CountLine(s, w, j);
    case MakeCall(w, input) => CallLine(s, w, input, j);
    case _ =>
      QuietEffect(s, step, j);
      QuietLine(s, Next(s, step), j);
  }

  lemma {:induction false} RunLine(s: State, steps: seq<Step>, j: nat)
    requires Inv(s) && JobLine(s, j)
    ensures JobLine(After(s, steps), j)
    decreases |steps|
  {
    if steps != [] {
      StepKeeps(s, steps[0]);
      StepLine(s, steps[0], j);
      RunLine(Next(s, steps[0]), steps[1..], j);
    }
  }

  // In every run, the provider is asked once for each journaled call of a job, and again
  // at most once for each time that the job was leased anew.
  lemma ProviderIsAskedOnceMore(steps: seq<Step>, j: nat)
    requires j < |After(EMPTY, steps).jobs|
    ensures var s := After(EMPTY, steps);
      Asked(s.invoked, j) == CallsOf(s, j) + Repeated(s.invoked, j)
      && (if s.jobs[j].attempts == 0 then Repeated(s.invoked, j) == 0 else Repeated(s.invoked, j) < s.jobs[j].attempts)
  {
    EmptyLine(j);
    RunLine(EMPTY, steps, j);
    var s := After(EMPTY, steps);
    assert JobLine(s, j);
    if Stale(s, j) != {} {
      var w :| w in Stale(s, j);
      assert Stale(s, j) == (Stale(s, j) - {w}) + {w};
    }
  }

  lemma EmptyLine(j: nat)
    ensures Inv(EMPTY) && JobLine(EMPTY, j)
  {
    assert Late(EMPTY, j) == {} && Stale(EMPTY, j) == {};
  }

  // ---------- Runs whose rows are written back as they were read ----------

  // A session writes back a row that has changed since it was read.
  predicate Overtaken(s: State, step: Step) {
    && (step.Expire? || step.Retry? || step.Cancel?)
    && Holds(s, step.session) && s.held[step.session].row != s.jobs[s.held[step.session].job]
  }

  predicate Undisturbed(s: State, steps: seq<Step>)
    decreases |steps|
  {
    steps == [] || (!Overtaken(s, steps[0]) && Undisturbed(Next(s, steps[0]), steps[1..]))
  }

  lemma {:induction false} UndisturbedRevivesNothing(s: State, steps: seq<Step>)
    requires Undisturbed(s, steps)
    ensures NoRevival(s, steps)
    decreases |steps|
  {
    if steps != [] {
      UndisturbedRevivesNothing(Next(s, steps[0]), steps[1..]);
    }
  }

  predicate TwiceAtMost(s: State) {
    forall j | 0 <= j < |s.jobs| :: s.jobs[j].attempts <= MAX_ATTEMPTS && (s.jobs[j].state == Queued ==> s.jobs[j].attempts < MAX_ATTEMPTS)
  }

  lemma WorkerTwice(s: State, step: Step)
    requires TwiceAtMost(s) && OfWorker(step)
    ensures TwiceAtMost(Next(s, step))
  {
    if step.TakeReply? || step.Settle? {
      forall j | 0 <= j < |s.jobs| ensures StartsNothing(s, Next(s, step), j) && Next(s, step).jobs[j].attempts == s.jobs[j].attempts {
        JobsStep(s, step);
        if step.TakeReply? {
          TakeQuiet(s, step.worker, j);
        } else {
          SettleQuiet(s, step.worker, step.facts, j);
        }
      }
      EndsOnly(s, step);
    }
  }

  // An answer queues nothing.
  lemma EndsOnly(s: State, step: Step)
    requires step.TakeReply? || step.Settle?
    ensures var t := Next(s, step);
      |t.jobs| == |s.jobs| && forall j | 0 <= j < |s.jobs| :: t.jobs[j].state == Queued ==> s.jobs[j].state == Queued
  {
  }

  lemma WorldTwice(s: State, step: Step)
    requires TwiceAtMost(s) && !OfWorker(step) && !Overtaken(s, step)
    ensures TwiceAtMost(Next(s, step))
  {
  }

  lemma {:induction false} RunTwice(s: State, steps: seq<Step>)
    requires TwiceAtMost(s) && Undisturbed(s, steps)
    ensures TwiceAtMost(After(s, steps))
    decreases |steps|
  {
    if steps != [] {
      if OfWorker(steps[0]) {
        WorkerTwice(s, steps[0]);
      } else {
        WorldTwice(s, steps[0]);
      }
      RunTwice(Next(s, steps[0]), steps[1..]);
    }
  }

  // How often the provider was asked in the jobs of one turn.
  function TurnAsked(s: State, j: nat): nat
    requires j < |s.jobs| && forall k | 0 <= k < |s.jobs| :: JobOk(s, k)
    decreases j
  {
    assert JobOk(s, j);
    Asked(s.invoked, j) + if s.jobs[j].refreshed.Some? then TurnAsked(s, s.jobs[j].refreshed.value) else 0
  }

  lemma {:induction false} TurnAsksTwice(s: State, j: nat)
    requires Inv(s) && j < |s.jobs| && forall k | 0 <= k < |s.jobs| :: Asked(s.invoked, k) <= 2 * CallsOf(s, k)
    ensures TurnAsked(s, j) <= 2 * TurnTotal(s, j)
    decreases j
  {
    assert JobOk(s, j);
    if s.jobs[j].refreshed.Some? {
      TurnAsksTwice(s, s.jobs[j].refreshed.value);
    }
  }

  // In every run whose rows are written back as they were read, one call of a job at most
  // is made again: five requests for a job, and eight for a turn however often it is
  // observed again.
  lemma UndisturbedTurn(steps: seq<Step>, j: nat)
    requires Undisturbed(EMPTY, steps) && j < |After(EMPTY, steps).jobs|
    ensures var s := After(EMPTY, steps);
      Repeated(s.invoked, j) <= 1 && Asked(s.invoked, j) <= TURN_CALLS + 1
      && (forall k | 0 <= k < |s.jobs| :: JobOk(s, k)) && TurnAsked(s, j) <= 2 * TURN_CALLS
  {
    ReachableInv(steps);
    RunTwice(EMPTY, steps);
    UndisturbedRevivesNothing(EMPTY, steps);
    var s := After(EMPTY, steps);
    forall k | 0 <= k < |s.jobs| ensures Repeated(s.invoked, k) <= 1 && Asked(s.invoked, k) == CallsOf(s, k) + Repeated(s.invoked, k) <= 2 * CallsOf(s, k) {
      ProviderIsAskedOnceMore(steps, k);
      EmptyLine(k);
      RunLine(EMPTY, steps, k);
      assert JobLine(s, k);
    }
    TurnMakesFourCalls(steps, j);
    TurnAsksTwice(s, j);
    assert JobOk(s, j);
  }
}
