/** What an undisturbed run leaves behind and answers, read off what its steps did and what the clock
    showed: on success, when a step fails, and when there is no valid plan. */
module ReconcileOutcome {
  import opened Basics
  import opened Lifecycle
  import opened Leases
  import opened Reconciler
  import opened ReconcileInvariant
  import opened ReconcileSafety
  import opened ReconcileLiveness

  /** Whether one of the first n steps changed something; the k-th Ensure meets choice 5 + 4k. */
  ghost predicate SawChange(choices: seq<Choice>, n: nat) {
    exists k :: 0 <= k < n && 5 + 4 * k < |choices| && choices[5 + 4 * k].observed
  }

  /** The k-th step of a plan has the checkpoint that says what its Ensure saw and when it was recorded. */
  ghost predicate CheckpointIn(r: TenantResource, plan: seq<PlannedStep>, choices: seq<Choice>, k: nat) {
    && k < |plan| && plan[k].Step? && 6 + 4 * k < |choices|
    && Checkpoint(plan[k].name, plan[k].version, r.generation, choices[5 + 4 * k].observed, choices[6 + 4 * k].now)
         in r.status.checkpoints
  }

  ghost predicate CheckpointsIn(r: TenantResource, plan: seq<PlannedStep>, choices: seq<Choice>, n: nat) {
    forall k :: 0 <= k < n ==> CheckpointIn(r, plan, choices, k)
  }

  /** Only the status changed, in this many writes. */
  predicate Rewritten(r: TenantResource, base: TenantResource, writes: nat) {
    r == base.(status := r.status, resourceVersion := base.resourceVersion + writes)
  }

  /** How a run that succeeds over an n-step plan leaves its tenant. */
  ghost predicate Completed(r: TenantResource, base: TenantResource, plan: seq<PlannedStep>, choices: seq<Choice>) {
    && Rewritten(r, base, 2 * |plan| + 2) && Done(r)
    && r.status.failureCount == 0 && r.status.retryAt.None?
    && CheckpointsIn(r, plan, choices, |plan|)
    && 3 + 4 * |plan| < |choices| && SaysReached(r, choices[3 + 4 * |plan|].now)
  }

  ghost predicate AnswersSuccess(result: RunResult, desired: DesiredState, changed: bool) {
    && result.changed == changed && !result.requeue && result.requeueAfter == 0 && result.error.None?
    && Reached(desired, result.phase)
  }

  /** What the local variables of the run hold at each point, in terms of the choices it met. */
  ghost predicate Tracks(
    w: World, rid: nat, tenant: TenantId, plan: seq<PlannedStep>, base: TenantResource, choices: seq<Choice>)
  {
    && rid in w.runs && tenant in w.resources
    && var pc := w.runs[rid].pc;
       && (pc.AtAcquire? || pc.AtGet? ==> w.resources[tenant] == base)
       && (FrameAt(pc).Some? ==> FrameTracks(pc, plan, base, choices))
       && (pc.AtRelease? || pc.Returned? ==>
             && AnswersSuccess(pc.result, base.spec.desired, SawChange(choices, |plan|))
             && Completed(w.resources[tenant], base, plan, choices))
  }

  ghost predicate FrameTracks(pc: Pc, plan: seq<PlannedStep>, base: TenantResource, choices: seq<Choice>)
    requires FrameAt(pc).Some?
  {
    var f := FrameAt(pc).value;
    && f.base == base && Rewritten(f.current, base, MadeAt(pc)) && (pc.AtStart? ==> f.index == 0)
    && f.current.status.failureCount == base.status.failureCount
    && f.current.status.observedGeneration == base.status.observedGeneration
    && CheckpointsIn(f.current, plan, choices, f.index)
    && (pc.AtCheckpoint? ==> 5 + 4 * f.index < |choices| && pc.observed == choices[5 + 4 * f.index].observed)
    && f.changed == SawChange(choices, if pc.AtCheckpoint? then f.index + 1 else f.index)
  }

  lemma SawOneMore(choices: seq<Choice>, k: nat)
    requires 5 + 4 * k < |choices|
    ensures SawChange(choices, k + 1) <==> SawChange(choices, k) || choices[5 + 4 * k].observed
  {
  }

  lemma EarlyTracks(
    w: World, rid: nat, c: Choice, tenant: TenantId, plan: seq<PlannedStep>, base: TenantResource, choices: seq<Choice>)
    requires RunOk(w, rid) && TenantOk(w, tenant) && OnTrack(w, rid, tenant, plan) && ValidPlan(plan) && Fits(c, plan)
    requires Tracks(w, rid, tenant, plan, base, choices)
    requires w.runs[rid].pc.AtAcquire? || w.runs[rid].pc.AtGet? || w.runs[rid].pc.AtLoop? || w.runs[rid].pc.AtRelease?
    ensures Tracks(Advance(w, rid, c), rid, tenant, plan, base, choices)
  {
    hide FrameOk, OutcomeOk, Bookkeeping, HonestTerminal, Versioned, ValidTenantId, Completed, CheckpointIn, ValidPlan;
  }

  lemma StartTracks(
    w: World, rid: nat, c: Choice, tenant: TenantId, plan: seq<PlannedStep>, base: TenantResource, choices: seq<Choice>)
    requires RunOk(w, rid) && TenantOk(w, tenant) && OnTrack(w, rid, tenant, plan) && ValidPlan(plan)
    requires Tracks(w, rid, tenant, plan, base, choices)
    requires w.runs[rid].pc.AtStart?
    ensures Tracks(Advance(w, rid, c), rid, tenant, plan, base, choices)
  {
    hide FrameOk, TenantOk, Cas, CheckpointIn, Completed, ValidPlan;
    var f := w.runs[rid].pc.frame;
    FrameFacts(w, rid, w.runs[rid], f, MadeAt(w.runs[rid].pc));
    WriteAccepted(w, rid, tenant, plan, StartedStatus(f.current));
  }

  lemma MarkTracks(
    w: World, rid: nat, c: Choice, tenant: TenantId, plan: seq<PlannedStep>, base: TenantResource, choices: seq<Choice>)
    requires RunOk(w, rid) && TenantOk(w, tenant) && OnTrack(w, rid, tenant, plan) && ValidPlan(plan)
    requires Tracks(w, rid, tenant, plan, base, choices)
    requires w.runs[rid].pc.AtMark?
    ensures Tracks(Advance(w, rid, c), rid, tenant, plan, base, choices)
  {
    hide FrameOk, TenantOk, Cas, Completed, CheckpointsIn;
    var f := w.runs[rid].pc.frame;
    FrameFacts(w, rid, w.runs[rid], f, MadeAt(w.runs[rid].pc));
    var status := MarkedStatus(f.current, plan[f.index].name);
    WriteAccepted(w, rid, tenant, plan, status);
    CheckpointsStay(f.current, status, plan, choices, f.index);
  }

  lemma EnsureTracks(
    w: World, rid: nat, c: Choice, tenant: TenantId, plan: seq<PlannedStep>, base: TenantResource, choices: seq<Choice>)
    requires RunOk(w, rid) && TenantOk(w, tenant) && OnTrack(w, rid, tenant, plan) && ValidPlan(plan)
    requires Tracks(w, rid, tenant, plan, base, choices)
    requires w.runs[rid].pc.AtEnsure? && c.fault.None?
    requires var k := w.runs[rid].pc.frame.index; 5 + 4 * k < |choices| && choices[5 + 4 * k] == c
    ensures Tracks(Advance(w, rid, c), rid, tenant, plan, base, choices)
  {
    hide FrameOk, TenantOk, CheckpointIn, Completed, ValidPlan, SawChange;
    SawOneMore(choices, w.runs[rid].pc.frame.index);
  }

  lemma CheckpointTracks(
    w: World, rid: nat, c: Choice, tenant: TenantId, plan: seq<PlannedStep>, base: TenantResource, choices: seq<Choice>)
    requires RunOk(w, rid) && TenantOk(w, tenant) && OnTrack(w, rid, tenant, plan) && ValidPlan(plan)
    requires Tracks(w, rid, tenant, plan, base, choices)
    requires w.runs[rid].pc.AtCheckpoint?
    requires var k := w.runs[rid].pc.frame.index; 6 + 4 * k < |choices| && choices[6 + 4 * k] == c
    ensures Tracks(Advance(w, rid, c), rid, tenant, plan, base, choices)
  {
    hide FrameOk, TenantOk, Cas, Completed, SawChange, SetCheckpoint, CheckpointsIn, CheckpointIn, Bookkeeping, WriteOk;
    var f, observed := w.runs[rid].pc.frame, w.runs[rid].pc.observed;
    FrameFacts(w, rid, w.runs[rid], f, MadeAt(w.runs[rid].pc));
    CurrentOk(w, rid, w.runs[rid], f, MadeAt(w.runs[rid].pc));
    var status := CheckpointedStatus(f.current, plan[f.index], observed, c.now);
    WriteAccepted(w, rid, tenant, plan, status);
    var next := f.current.(status := status, resourceVersion := f.current.resourceVersion + 1);
    CheckpointAdded(f.current, next, plan, choices, f.index);
  }

  lemma CheckpointsStay(r: TenantResource, status: Status, plan: seq<PlannedStep>, choices: seq<Choice>, n: nat)
    requires status.checkpoints == r.status.checkpoints && CheckpointsIn(r, plan, choices, n)
    ensures CheckpointsIn(r.(status := status, resourceVersion := r.resourceVersion + 1), plan, choices, n)
  {
    var next := r.(status := status, resourceVersion := r.resourceVersion + 1);
    forall k | 0 <= k < n ensures CheckpointIn(next, plan, choices, k) { assert CheckpointIn(r, plan, choices, k); }
  }

  lemma CheckpointAdded(r: TenantResource, next: TenantResource, plan: seq<PlannedStep>, choices: seq<Choice>, n: nat)
    requires ValidPlan(plan) && n < |plan| && 6 + 4 * n < |choices| && Bookkeeping(r)
    requires CheckpointsIn(r, plan, choices, n) && next.generation == r.generation
    requires next.status.checkpoints == SetCheckpoint(r.status.checkpoints,
               Checkpoint(plan[n].name, plan[n].version, r.generation, choices[5 + 4 * n].observed,
                          choices[6 + 4 * n].now))
    ensures CheckpointsIn(next, plan, choices, n + 1)
  {
    hide SetCheckpoint;
    var c := Checkpoint(plan[n].name, plan[n].version, r.generation, choices[5 + 4 * n].observed,
                        choices[6 + 4 * n].now);
    SetCheckpointKeeps(r.status.checkpoints, c);
    forall k | 0 <= k < n + 1 ensures CheckpointIn(next, plan, choices, k) {
      if k < n { assert CheckpointIn(r, plan, choices, k) && plan[k].name != plan[n].name; }
    }
  }

  lemma FinishTracks(
    w: World, rid: nat, c: Choice, tenant: TenantId, plan: seq<PlannedStep>, base: TenantResource, choices: seq<Choice>)
    requires RunOk(w, rid) && TenantOk(w, tenant) && OnTrack(w, rid, tenant, plan) && ValidPlan(plan)
    requires Tracks(w, rid, tenant, plan, base, choices)
    requires w.runs[rid].pc.AtFinish? && 3 + 4 * |plan| < |choices| && choices[3 + 4 * |plan|] == c
    ensures Tracks(Advance(w, rid, c), rid, tenant, plan, base, choices)
  {
    hide FrameOk, TenantOk, Cas, SawChange, SetCondition, CheckpointsIn, ValidPlan;
    var f := w.runs[rid].pc.frame;
    FrameFacts(w, rid, w.runs[rid], f, MadeAt(w.runs[rid].pc));
    var status := FinishedStatus(f.current, c.now);
    WriteAccepted(w, rid, tenant, plan, status);
    CheckpointsStay(f.current, status, plan, choices, f.index);
    SetConditionCounts(f.current.status.conditions, TerminalCondition(f.current, c.now), READY_CONDITION);
  }

  lemma StepTracks(
    w: World, rid: nat, tenant: TenantId, plan: seq<PlannedStep>, base: TenantResource, choices: seq<Choice>, i: nat)
    requires Inv(w) && OnTrack(w, rid, tenant, plan) && ValidPlan(plan) && i < |choices| && Fits(choices[i], plan)
    requires Tracks(w, rid, tenant, plan, base, choices) && !w.runs[rid].pc.Returned?
    requires MovesLeft(w.runs[rid].pc, |plan|) == 4 * |plan| + 5 - i
    ensures Tracks(Advance(w, rid, choices[i]), rid, tenant, plan, base, choices)
  {
    hide RunOk, TenantOk, ValidPlan, Tracks, Exclusive, Separate;
    assert RunOk(w, rid) && TenantOk(w, tenant);
    var pc, c := w.runs[rid].pc, choices[i];
    if pc.AtEnsure? {
      EnsureTracks(w, rid, c, tenant, plan, base, choices);
    } else if pc.AtAcquire? || pc.AtGet? || pc.AtLoop? || pc.AtRelease? {
      EarlyTracks(w, rid, c, tenant, plan, base, choices);
    } else if pc.AtStart? {
      StartTracks(w, rid, c, tenant, plan, base, choices);
    } else if pc.AtMark? {
      MarkTracks(w, rid, c, tenant, plan, base, choices);
    } else if pc.AtCheckpoint? {
      CheckpointTracks(w, rid, c, tenant, plan, base, choices);
    } else {
      FinishAtEnd(w, rid);
      FinishTracks(w, rid, c, tenant, plan, base, choices);
    }
  }

  lemma FinishAtEnd(w: World, rid: nat)
    requires RunOk(w, rid) && w.runs[rid].pc.AtFinish?
    ensures w.runs[rid].pc.frame.index == |w.runs[rid].pc.frame.plan|
  {
    hide FrameOk;
  }

  /** After m moves that fit the plan the run is still on its track, m moves nearer its end. */
  lemma {:induction false} Partway(
    w: World, rid: nat, tenant: TenantId, plan: seq<PlannedStep>, base: TenantResource, choices: seq<Choice>, m: nat)
    requires Inv(w) && OnTrack(w, rid, tenant, plan) && ValidPlan(plan) && Tracks(w, rid, tenant, plan, base, choices)
    requires w.runs[rid].pc.AtAcquire? && m <= |choices| && m <= 4 * |plan| + 5
    requires forall i :: 0 <= i < m ==> Fits(choices[i], plan)
    ensures var v := Exec(w, MovesOf(rid, choices[..m]));
            && Inv(v) && OnTrack(v, rid, tenant, plan) && Tracks(v, rid, tenant, plan, base, choices)
            && rid in v.runs && MovesLeft(v.runs[rid].pc, |plan|) == 4 * |plan| + 5 - m
  {
    hide Inv, OnTrack, ValidPlan, Advance, Tracks;
    InTrack(w, rid, tenant, plan);
    if m == 0 {
      assert choices[..0] == [];
    } else {
      Partway(w, rid, tenant, plan, base, choices, m - 1);
      var v := Exec(w, MovesOf(rid, choices[..m - 1]));
      OnlyReturnedIsOver(v, rid, tenant, plan);
      StepOnward(v, rid, choices[m - 1], tenant, plan);
      MoveKeepsInv(v, rid, choices[m - 1]);
      StepTracks(v, rid, tenant, plan, base, choices, m - 1);
      OneMoreMove(w, rid, choices, m - 1);
    }
  }

  lemma InTrack(w: World, rid: nat, tenant: TenantId, plan: seq<PlannedStep>)
    requires OnTrack(w, rid, tenant, plan)
    ensures rid in w.runs
  {
  }

  lemma OneMoreMove(w: World, rid: nat, choices: seq<Choice>, m: nat)
    requires m < |choices|
    ensures Exec(w, MovesOf(rid, choices[..m + 1])) == Next(Exec(w, MovesOf(rid, choices[..m])), Move(rid, choices[m]))
  {
    hide Next;
    MovesAppend(rid, choices[..m], [choices[m]]);
    assert choices[..m + 1] == choices[..m] + [choices[m]];
    assert MovesOf(rid, [choices[m]]) == [Move(rid, choices[m])];
    ExecAppend(w, MovesOf(rid, choices[..m]), [Move(rid, choices[m])]);
    var v := Exec(w, MovesOf(rid, choices[..m]));
    assert Exec(v, [Move(rid, choices[m])]) == Next(v, Move(rid, choices[m]));
  }

  lemma {:induction false} MovesAppend(rid: nat, a: seq<Choice>, b: seq<Choice>)
    ensures MovesOf(rid, a + b) == MovesOf(rid, a) + MovesOf(rid, b)
  {
    if a == [] {
      assert a + b == b;
    } else {
      assert (a + b)[1..] == a[1..] + b;
      MovesAppend(rid, a[1..], b);
    }
  }

  // ----- the three ways an undisturbed run ends -----

  /** From any reachable state, a run for a tenant that is not held, over a valid plan whose steps succeed:
      it answers that it changed something exactly if some step said so, asks for no retry, and leaves
      2n+2 more versions, a checkpoint with each step's own verdict and time, and the phase and Ready
      condition its desired state calls for. */
  lemma UndisturbedSuccessIsExact(
    w: World, actions: seq<Action>, rid: nat, tenant: TenantId, plan: seq<PlannedStep>, choices: seq<Choice>)
    requires Initial(w)
    requires var v := Exec(w, actions); rid !in v.runs && tenant in v.resources && tenant !in v.leases.held
    requires ValidPlan(plan) && |choices| == 4 * |plan| + 5 && forall c :: c in choices ==> Fits(c, plan)
    ensures var v := Exec(w, actions);
            var u := Exec(Next(v, Spawn(rid, tenant)), MovesOf(rid, choices));
            && rid in u.runs && u.runs[rid].pc.Returned? && tenant in u.resources
            && AnswersSuccess(u.runs[rid].pc.result, v.resources[tenant].spec.desired, SawChange(choices, |plan|))
            && Completed(u.resources[tenant], v.resources[tenant], plan, choices)
  {
    hide Inv, OnTrack, ValidPlan, Tracks;
    var v := Exec(w, actions);
    var started := Next(v, Spawn(rid, tenant));
    Started(w, actions, rid, tenant, plan, choices);
    assert choices[..|choices|] == choices;
    Partway(started, rid, tenant, plan, v.resources[tenant], choices, |choices|);
    var u := Exec(started, MovesOf(rid, choices));
    OnlyReturnedIsOver(u, rid, tenant, plan);
    TracksEnd(u, rid, tenant, plan, v.resources[tenant], choices);
  }

  lemma Started(
    w: World, actions: seq<Action>, rid: nat, tenant: TenantId, plan: seq<PlannedStep>, choices: seq<Choice>)
    requires Initial(w)
    requires var v := Exec(w, actions); rid !in v.runs && tenant in v.resources && tenant !in v.leases.held
    ensures var v := Exec(w, actions);
            var started := Next(v, Spawn(rid, tenant));
            && Inv(started) && OnTrack(started, rid, tenant, plan) && started.runs[rid].pc.AtAcquire?
            && Tracks(started, rid, tenant, plan, v.resources[tenant], choices)
  {
    hide RunOk, Exclusive, Separate;
    InitialInv(w);
    ExecKeepsInv(w, actions);
    var v := Exec(w, actions);
    assert TenantOk(v, tenant);
    NextKeepsInv(v, Spawn(rid, tenant));
  }

  lemma TracksEnd(
    w: World, rid: nat, tenant: TenantId, plan: seq<PlannedStep>, base: TenantResource, choices: seq<Choice>)
    requires Tracks(w, rid, tenant, plan, base, choices) && w.runs[rid].pc.Returned?
    ensures tenant in w.resources && Completed(w.resources[tenant], base, plan, choices)
    ensures AnswersSuccess(w.runs[rid].pc.result, base.spec.desired, SawChange(choices, |plan|))
  {
  }

  /** The failure a fault is reported as: its own code and message where it has them, and retryable
      unless it says otherwise. */
  ghost predicate ReportedAs(fault: Fault, failure: StepError) {
    && (fault.Opaque? ==> failure == StepError("STEP_FAILED", "A tenant lifecycle step failed.", true))
    && (fault.Classified? ==>
          && failure.retryable == fault.failure.retryable
          && (fault.failure.code != "" ==> failure.code == fault.failure.code)
          && (fault.failure.code == "" ==> failure.code == "STEP_FAILED")
          && (fault.failure.safeMessage != "" ==> failure.safeMessage == fault.failure.safeMessage)
          && (fault.failure.safeMessage == "" ==> failure.safeMessage == "A tenant lifecycle step failed."))
  }

  /** How a failed run leaves its tenant: one more failure, what failed and why, and when to try again. */
  ghost predicate Degrades(
    r: TenantResource, base: TenantResource, writes: nat, stepName: string, failure: StepError, now: int, later: int)
  {
    && Rewritten(r, base, writes)
    && r.status.phase == Degraded && r.status.currentStep == stepName
    && r.status.observedGeneration == base.status.observedGeneration
    && r.status.failureCount == (base.status.failureCount + 1) % 0x1_0000_0000
    && r.status.retryAt == (if failure.retryable then Some(now + Backoff(r.status.failureCount)) else None)
    && Condition("Ready", ConditionFalse, failure.code, failure.safeMessage, base.generation, later)
         in r.status.conditions
  }

  ghost predicate AnswersFailure(result: RunResult, r: TenantResource, failure: StepError, changed: bool) {
    && result.changed == changed && result.phase == Degraded && result.error == Some(StepFailed(failure))
    && result.requeue == failure.retryable
    && result.requeueAfter == (if failure.retryable then Backoff(r.status.failureCount) else 0)
  }

  /** A run that is about to record a failure, undisturbed: one write and the release. */
  lemma FailureMoves(w: World, rid: nat, tenant: TenantId, c: Choice, d: Choice)
    requires Inv(w) && rid in w.runs && w.runs[rid].tenant == tenant && !w.runs[rid].cancelled
    requires w.runs[rid].pc.AtFail? && tenant in w.history
    requires |w.history[tenant]| == w.runs[rid].pc.frame.start + MadeAt(w.runs[rid].pc)
    ensures var pc := w.runs[rid].pc;
            var f, u := pc.frame, Advance(Advance(w, rid, c), rid, d);
            && rid in Advance(w, rid, c).runs && rid in u.runs && u.runs[rid].pc.Returned? && tenant in u.resources
            && u.resources[tenant] == Proposed(f.current,
                                               FailedStatus(f.current, pc.stepName, pc.failure, c.now, c.later))
            && AnswersFailure(u.runs[rid].pc.result, u.resources[tenant], pc.failure, pc.midway && f.changed)
  {
    hide FrameOk, TenantOk, Cas, SetCondition, Backoff, Exclusive, Separate;
    var pc := w.runs[rid].pc;
    assert RunOk(w, rid);
    FrameFacts(w, rid, w.runs[rid], pc.frame, MadeAt(pc));
    var status := FailedStatus(pc.frame.current, pc.stepName, pc.failure, c.now, c.later);
    InTenants(w, rid, w.runs[rid], pc.frame, MadeAt(pc));
    assert TenantOk(w, tenant);
    CasOutcome(w, rid, w.runs[rid], pc.frame, MadeAt(pc), status);
    MoveKeepsInv(w, rid, c);
    var v := Advance(w, rid, c);
    assert RunOk(v, rid);
  }

  lemma InTenants(w: World, rid: nat, run: Run, f: Frame, made: nat)
    requires FrameOk(w, rid, run, f, made)
    ensures run.tenant in w.resources && f.current.status.observedGeneration <= f.current.generation
  {
    hide Chain, OnlyWriters, ValidTenantId;
  }

  lemma TwoMoreMoves(w: World, rid: nat, choices: seq<Choice>, m: nat)
    requires m + 2 == |choices|
    requires var v := Exec(w, MovesOf(rid, choices[..m])); rid in v.runs && rid in Advance(v, rid, choices[m]).runs
    ensures var v := Exec(w, MovesOf(rid, choices[..m]));
            Exec(w, MovesOf(rid, choices)) == Advance(Advance(v, rid, choices[m]), rid, choices[m + 1])
  {
    hide Advance, Exec;
    OneMoreMove(w, rid, choices, m);
    OneMoreMove(w, rid, choices, m + 1);
    assert choices[..m + 2] == choices;
  }

  /** What a run that is about to record the failure of its k-th step holds. */
  ghost predicate Failing(
    w: World, rid: nat, tenant: TenantId, plan: seq<PlannedStep>, base: TenantResource, choices: seq<Choice>, k: nat)
    requires k < |plan|
  {
    && rid in w.runs && w.runs[rid].tenant == tenant && !w.runs[rid].cancelled && w.runs[rid].pc.AtFail?
    && tenant in w.history
    && var pc := w.runs[rid].pc;
       && |w.history[tenant]| == pc.frame.start + MadeAt(pc) && MadeAt(pc) == 2 + 2 * k
       && Rewritten(pc.frame.current, base, 2 + 2 * k) && CheckpointsIn(pc.frame.current, plan, choices, k)
       && pc.midway && pc.frame.changed == SawChange(choices, k + 1)
       && plan[k].Step? && pc.stepName == plan[k].name && 5 + 4 * k < |choices| && choices[5 + 4 * k].fault.Some?
       && ReportedAs(choices[5 + 4 * k].fault.value, pc.failure)
       && pc.frame.current.status.failureCount == base.status.failureCount
       && pc.frame.current.status.observedGeneration == base.status.observedGeneration
  }

  lemma FailedEnsure(
    w: World, rid: nat, c: Choice, tenant: TenantId, plan: seq<PlannedStep>, base: TenantResource,
    choices: seq<Choice>, k: nat)
    requires Inv(w) && OnTrack(w, rid, tenant, plan) && Tracks(w, rid, tenant, plan, base, choices) && ValidPlan(plan)
    requires k < |plan| && MovesLeft(w.runs[rid].pc, |plan|) == 4 * |plan| - 4 * k
    requires c.fault.Some? && 5 + 4 * k < |choices| && choices[5 + 4 * k] == c
    ensures Failing(Advance(w, rid, c), rid, tenant, plan, base, choices, k)
  {
    hide FrameOk, TenantOk, CheckpointsIn, SawChange, Exclusive, Separate, Completed, AnswersSuccess, ClosingOk;
    assert RunOk(w, rid);
    SawOneMore(choices, k);
  }

  lemma UntilTheFault(
    w: World, rid: nat, tenant: TenantId, plan: seq<PlannedStep>, base: TenantResource, choices: seq<Choice>, k: nat)
    requires Inv(w) && OnTrack(w, rid, tenant, plan) && ValidPlan(plan) && Tracks(w, rid, tenant, plan, base, choices)
    requires w.runs[rid].pc.AtAcquire? && k < |plan| && 5 + 4 * k < |choices| && choices[5 + 4 * k].fault.Some?
    requires forall i :: 0 <= i < 5 + 4 * k ==> Fits(choices[i], plan)
    ensures var y := Exec(w, MovesOf(rid, choices[..6 + 4 * k]));
            Inv(y) && Failing(y, rid, tenant, plan, base, choices, k)
  {
    hide Inv, OnTrack, ValidPlan, Tracks, Advance, Failing, MovesLeft;
    var m := 5 + 4 * k;
    Partway(w, rid, tenant, plan, base, choices, m);
    var x := Exec(w, MovesOf(rid, choices[..m]));
    FailedEnsure(x, rid, choices[m], tenant, plan, base, choices, k);
    MoveKeepsInv(x, rid, choices[m]);
    OneMoreMove(w, rid, choices, m);
  }

  /** The two moves behind it. */
  lemma FailureIsWritten(
    w: World, rid: nat, tenant: TenantId, plan: seq<PlannedStep>, base: TenantResource, choices: seq<Choice>, k: nat)
    requires Inv(w) && k < |plan| && Failing(w, rid, tenant, plan, base, choices, k) && |choices| == 8 + 4 * k
    ensures var m, c := 6 + 4 * k, Advance(w, rid, choices[6 + 4 * k]);
            && rid in c.runs
            && var u := Advance(c, rid, choices[m + 1]);
               FailedAt(u, rid, tenant, plan, base, choices, k)
  {
    hide Inv, Advance, CheckpointsIn, SawChange, ReportedAs, FailedStatus;
    var m, pc := 6 + 4 * k, w.runs[rid].pc;
    FailureMoves(w, rid, tenant, choices[m], choices[m + 1]);
    FailureWritten(pc.frame.current, base, 2 * k + 2, pc.stepName, pc.failure, choices[m].now, choices[m].later);
    CheckpointsStay(pc.frame.current, FailedStatus(pc.frame.current, pc.stepName, pc.failure, choices[m].now,
                                                   choices[m].later), plan, choices, k);
  }

  /** How a run that failed at its k-th step has ended. */
  ghost predicate FailedAt(
    u: World, rid: nat, tenant: TenantId, plan: seq<PlannedStep>, base: TenantResource, choices: seq<Choice>, k: nat)
    requires k < |plan| && 6 + 4 * k < |choices|
  {
    && rid in u.runs && u.runs[rid].pc.Returned? && tenant in u.resources
    && var result, r := u.runs[rid].pc.result, u.resources[tenant];
       && result.error.Some? && result.error.value.StepFailed? && choices[5 + 4 * k].fault.Some?
       && var failure := result.error.value.failure;
          && ReportedAs(choices[5 + 4 * k].fault.value, failure)
          && AnswersFailure(result, r, failure, SawChange(choices, k + 1))
          && plan[k].Step?
          && Degrades(r, base, 2 * k + 3, plan[k].name, failure, choices[6 + 4 * k].now, choices[6 + 4 * k].later)
          && CheckpointsIn(r, plan, choices, k)
  }

  /** From any reachable state, a run for a tenant that is not held whose k-th step is the first to fail: it
      answers the failure as it is reported, with the changes seen up to and including that step, and
      leaves the checkpoints of the steps before it, and Degraded with the step's name on top. */
  lemma UndisturbedFailureIsExact(
    w: World, actions: seq<Action>, rid: nat, tenant: TenantId, plan: seq<PlannedStep>, choices: seq<Choice>, k: nat)
    requires Initial(w)
    requires var v := Exec(w, actions); rid !in v.runs && tenant in v.resources && tenant !in v.leases.held
    requires ValidPlan(plan) && k < |plan| && |choices| == 8 + 4 * k && choices[5 + 4 * k].fault.Some?
    requires forall i :: 0 <= i < 5 + 4 * k ==> Fits(choices[i], plan)
    ensures var v := Exec(w, actions);
            var u := Exec(Next(v, Spawn(rid, tenant)), MovesOf(rid, choices));
            FailedAt(u, rid, tenant, plan, v.resources[tenant], choices, k)
  {
    hide Inv, OnTrack, ValidPlan, Tracks, Advance, FailedAt, Exec, Initial;
    var v := Exec(w, actions);
    var started := Next(v, Spawn(rid, tenant));
    Started(w, actions, rid, tenant, plan, choices);
    UntilTheFault(started, rid, tenant, plan, v.resources[tenant], choices, k);
    var y := Exec(started, MovesOf(rid, choices[..6 + 4 * k]));
    FailureIsWritten(y, rid, tenant, plan, v.resources[tenant], choices, k);
    TwoMoreMoves(started, rid, choices, 6 + 4 * k);
  }

  /** The write that records a failure. */
  lemma FailureWritten(
    r: TenantResource, base: TenantResource, writes: nat, stepName: string, failure: StepError, now: int, later: int)
    requires Rewritten(r, base, writes) && r.status.failureCount == base.status.failureCount
    requires r.status.observedGeneration == base.status.observedGeneration
    ensures Degrades(Proposed(r, FailedStatus(r, stepName, failure, now, later)), base, writes + 1, stepName, failure,
                     now, later)
    ensures FailedStatus(r, stepName, failure, now, later).checkpoints == r.status.checkpoints
  {
    hide Backoff, SetCondition;
    SetConditionCounts(r.status.conditions, FailureCondition(r, failure, later), READY_CONDITION);
  }

  /** From any reachable state, a run for a tenant that is not held and for which there is no valid plan: it
      answers that, for good, and leaves Degraded at planning in one write. */
  lemma UndisturbedRefusalIsExact(
    w: World, actions: seq<Action>, rid: nat, tenant: TenantId, choices: seq<Choice>)
    requires Initial(w)
    requires var v := Exec(w, actions); rid !in v.runs && tenant in v.resources && tenant !in v.leases.held
    requires |choices| == 4 && (choices[1].plan.Some? ==> !ValidPlan(choices[1].plan.value))
    ensures var v := Exec(w, actions);
            var u := Exec(Next(v, Spawn(rid, tenant)), MovesOf(rid, choices));
            var failure := StepError("INVALID_PLAN", "The tenant lifecycle plan is invalid.", false);
            && rid in u.runs && u.runs[rid].pc.Returned? && tenant in u.resources
            && AnswersFailure(u.runs[rid].pc.result, u.resources[tenant], failure, false)
            && Degrades(u.resources[tenant], v.resources[tenant], 1, "plan", failure, choices[2].now, choices[2].later)
            && u.resources[tenant].status.checkpoints == v.resources[tenant].status.checkpoints
  {
    hide Inv, ValidPlan, AnswersFailure, Advance;
    var v := Exec(w, actions);
    var started := Next(v, Spawn(rid, tenant));
    Started(w, actions, rid, tenant, [], choices);
    var y := Exec(started, MovesOf(rid, choices[..2]));
    RefusedPlan(started, rid, tenant, v.resources[tenant], choices);
    FailureMoves(y, rid, tenant, choices[2], choices[3]);
    TwoMoreMoves(started, rid, choices, 2);
    FailureWritten(y.runs[rid].pc.frame.current, v.resources[tenant], 0, "plan", y.runs[rid].pc.failure,
                   choices[2].now, choices[2].later);
  }

  lemma RefusedPlan(w: World, rid: nat, tenant: TenantId, base: TenantResource, choices: seq<Choice>)
    requires Inv(w) && OnTrack(w, rid, tenant, []) && Tracks(w, rid, tenant, [], base, choices)
    requires w.runs[rid].pc.AtAcquire? && 2 <= |choices|
    requires choices[1].plan.Some? ==> !ValidPlan(choices[1].plan.value)
    ensures var y := Exec(w, MovesOf(rid, choices[..2]));
            && Inv(y) && rid in y.runs && y.runs[rid].tenant == tenant && !y.runs[rid].cancelled
            && y.runs[rid].pc.AtFail? && tenant in y.history
            && var pc := y.runs[rid].pc;
               && |y.history[tenant]| == pc.frame.start + MadeAt(pc) && pc.frame.current == base && !pc.midway
               && pc.stepName == "plan"
               && pc.failure == StepError("INVALID_PLAN", "The tenant lifecycle plan is invalid.", false)
  {
    hide ValidPlan, RunOk, Exclusive, Separate, Bookkeeping, HonestTerminal, Versioned;
    assert choices[..0] == [];
    OneMoreMove(w, rid, choices, 0);
    OneMoreMove(w, rid, choices, 1);
    var x := Advance(w, rid, choices[0]);
    MoveKeepsInv(w, rid, choices[0]);
    MoveKeepsInv(x, rid, choices[1]);
    assert TenantOk(x, tenant);
  }
}
